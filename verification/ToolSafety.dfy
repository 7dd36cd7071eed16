/** What every schedule of tool calls keeps: one final status and one message a call, the same
    result in both, and no second run of a tool that cannot take one. */
module ToolSafety {
  import opened Messages
  import opened ToolRecords
  import opened ToolRuns

  // ---------- The invariant ----------

  /** A record has a result exactly when it is final. */
  ghost predicate RecordOk(record: Record) {
    && (Terminal(record) <==> record.result.Some?)
    && (record.result.Some? ==> record.result.value.Object?)
  }

  ghost predicate RecordsOk(records: map<string, Record>) {
    forall call :: call in records ==> RecordOk(records[call])
  }

  /** The message of a call is its record's final result. */
  ghost predicate ResultAt(records: map<string, Record>, entry: Entry)
    requires entry.Answered?
  {
    && entry.call in records
    && Terminal(records[entry.call])
    && records[entry.call].result == Some(entry.result)
  }

  ghost predicate ResultsOk(records: map<string, Record>, transcript: seq<Entry>) {
    forall k :: 0 <= k < |transcript| && transcript[k].Answered? ==> ResultAt(records, transcript[k])
  }

  ghost predicate AnsweredOnce(transcript: seq<Entry>) {
    forall j, k :: 0 <= j < k < |transcript| && transcript[j].Answered? && transcript[k].Answered? ==>
      transcript[j].call != transcript[k].call
  }

  ghost predicate DecisionOk(record: Record, decision: Decision) {
    Terminal(record) || (decision.Execute? && record.status.Running?) || (decision.Await? && record.status.Waiting?)
  }

  ghost predicate AdmitsOk(records: map<string, Record>, admits: map<string, Decision>) {
    forall call :: call in admits ==> call in records && DecisionOk(records[call], admits[call])
  }

  ghost predicate ReportOk(records: map<string, Record>, outcome: Outcome) {
    && outcome.call in records
    && Terminal(records[outcome.call])
    && outcome == OutcomeFromRecord(outcome.call, records[outcome.call])
  }

  ghost predicate ReturnedOk(records: map<string, Record>, returned: set<Outcome>) {
    forall outcome :: outcome in returned ==> ReportOk(records, outcome)
  }

  ghost predicate FinalizedOk(transcript: seq<Entry>, finalized: set<string>) {
    forall call :: call in finalized ==> HasResult(transcript, call)
  }

  ghost predicate Done(transcript: seq<Entry>, order: seq<string>, next: nat) {
    next <= |order| && forall k :: 0 <= k < next ==> HasResult(transcript, order[k])
  }

  ghost predicate SnapshotOk(records: map<string, Record>, snapshot: map<string, Record>, order: seq<string>) {
    forall call :: call in order ==>
      call in records && call in snapshot && (Terminal(snapshot[call]) ==> records[call] == snapshot[call])
  }

  ghost predicate TaskOk(records: map<string, Record>, transcript: seq<Entry>, task: Task) {
    match task
    case Admitted(call, decision) => call in records && DecisionOk(records[call], decision)
    case Writing(call, result) => call in records && result.error != Some("")
    case Resolving(call) => call in records && DecisionOk(records[call], Await)
    case Resolved(call, result) => call in records && DecisionOk(records[call], Await) && result.error != Some("")
    case Rereading(call) => call in records && Terminal(records[call])
    case Wrote(outcome) => ReportOk(records, outcome)
    case Group(_, snapshot, order, next) =>
      && Done(transcript, order, next)
      && SnapshotOk(records, snapshot, order)
      && forall call :: call in order ==> Terminal(snapshot[call]) && RecordOk(snapshot[call])
    case Closing(_, _, snapshot, order, next, closed) =>
      && Done(transcript, order, next)
      && SnapshotOk(records, snapshot, order)
      && (closed ==> next < |order| && Terminal(records[order[next]]))
    case Gone => true
    case _ => task.call in records
  }

  ghost predicate TasksOk(records: map<string, Record>, transcript: seq<Entry>, tasks: seq<Task>) {
    forall t :: 0 <= t < |tasks| ==> TaskOk(records, transcript, tasks[t])
  }

  predicate IsAdmission(task: Task) {
    task.Admitting? || task.Admitted?
  }

  predicate IsResolution(task: Task) {
    task.Resolving? || task.Resolved?
  }

  /** One admission a call, and no resolution before it is over. */
  ghost predicate StageOk(tasks: seq<Task>, t: nat, admitting: set<string>, admits: map<string, Decision>)
    requires t < |tasks|
  {
    && (IsAdmission(tasks[t]) ==>
          && tasks[t].call in admitting && tasks[t].call !in admits
          && forall u :: 0 <= u < |tasks| && u != t && IsAdmission(tasks[u]) ==> tasks[u].call != tasks[t].call)
    && (IsResolution(tasks[t]) ==> tasks[t].call in admits)
  }

  ghost predicate StagesOk(tasks: seq<Task>, admitting: set<string>, admits: map<string, Decision>) {
    forall t :: 0 <= t < |tasks| ==> StageOk(tasks, t, admitting, admits)
  }

  /** An attempt has its own number, and a tool that cannot be retried starts its body on the
      first one alone. */
  ghost predicate AttemptOk(tasks: seq<Task>, t: nat, attempts: map<string, nat>)
    requires t < |tasks|
  {
    tasks[t].Executing? ==>
      && 1 <= tasks[t].attempt <= Count(attempts, tasks[t].call)
      && forall u :: 0 <= u < |tasks| && u != t && tasks[u].Executing? && tasks[u].call == tasks[t].call ==>
           tasks[u].attempt != tasks[t].attempt
  }

  ghost predicate AttemptsOk(tasks: seq<Task>, attempts: map<string, nat>) {
    forall t :: 0 <= t < |tasks| ==> AttemptOk(tasks, t, attempts)
  }

  ghost predicate BodyOk(tasks: seq<Task>, attempts: map<string, nat>, bodies: map<string, nat>, call: string) {
    && Count(bodies, call) <= 1
    && (Count(bodies, call) == 1 ==> Count(attempts, call) >= 1)
    && (Count(bodies, call) == 1 ==>
          forall t :: 0 <= t < |tasks| && tasks[t].Executing? && tasks[t].call == call ==> tasks[t].attempt > 1)
  }

  ghost predicate BodiesOk(tasks: seq<Task>, attempts: map<string, nat>, bodies: map<string, nat>,
        retrySafe: set<string>) {
    forall call :: call !in retrySafe ==> BodyOk(tasks, attempts, bodies, call)
  }

  ghost predicate Keys(s: State) {
    s.admits.Keys <= s.admitting <= s.records.Keys
  }

  ghost predicate Safe(s: State, retrySafe: set<string>) {
    && Keys(s)
    && RecordsOk(s.records)
    && ResultsOk(s.records, s.transcript)
    && AnsweredOnce(s.transcript)
    && AdmitsOk(s.records, s.admits)
    && ReturnedOk(s.records, s.returned)
    && FinalizedOk(s.transcript, s.finalized)
    && TasksOk(s.records, s.transcript, s.tasks)
    && StagesOk(s.tasks, s.admitting, s.admits)
    && AttemptsOk(s.tasks, s.attempts)
    && BodiesOk(s.tasks, s.attempts, s.bodies, retrySafe)
  }

  lemma SafeIsWellFormed(s: State, retrySafe: set<string>)
    requires Safe(s, retrySafe)
    ensures WellFormed(s)
  {
    forall t | 0 <= t < |s.tasks| ensures Known(s.records, s.tasks[t]) {
      assert TaskOk(s.records, s.transcript, s.tasks[t]);
    }
  }

  // ---------- Records only move forward ----------

  /** Final records stay; others stay or become final, but for `call`, which an admission moves. */
  ghost predicate Moves(from: Record, to: Record, free: bool) {
    && to.groupId == from.groupId && to.runId == from.runId
    && (Terminal(from) ==> to == from)
    && (to == from || Terminal(to) || free)
  }

  ghost predicate Grows(before: map<string, Record>, after: map<string, Record>, free: set<string>) {
    forall call :: call in before ==> call in after && Moves(before[call], after[call], call in free)
  }

  lemma HasResultStays(before: seq<Entry>, after: seq<Entry>, call: string)
    requires before <= after && HasResult(before, call)
    ensures HasResult(after, call)
  {
    var k :| 0 <= k < |before| && before[k].Answered? && before[k].call == call;
    assert after[k] == before[k];
  }

  lemma TaskStays(r: map<string, Record>, r': map<string, Record>, tr: seq<Entry>, tr': seq<Entry>, task: Task,
        free: set<string>)
    requires TaskOk(r, tr, task) && Grows(r, r', free) && tr <= tr'
    requires (task.Admitted? || IsResolution(task)) ==> task.call !in free
    ensures TaskOk(r', tr', task)
  {
    if task.Group? || task.Closing? {
      forall k | 0 <= k < task.next ensures HasResult(tr', task.order[k]) {
        HasResultStays(tr, tr', task.order[k]);
      }
      if task.Closing? && task.closed {
        assert task.order[task.next] in task.order;
      }
    }
  }

  /** Everything already established outlives a step. */
  lemma Stays(s: State, r': map<string, Record>, tr': seq<Entry>, free: set<string>)
    requires RecordsOk(s.records) && ResultsOk(s.records, s.transcript)
    requires AdmitsOk(s.records, s.admits) && ReturnedOk(s.records, s.returned)
        && FinalizedOk(s.transcript, s.finalized)
    requires Grows(s.records, r', free) && s.transcript <= tr'
    requires forall call :: call in free ==> call !in s.admits
    ensures ResultsOk(r', s.transcript)
    ensures AdmitsOk(r', s.admits) && ReturnedOk(r', s.returned) && FinalizedOk(tr', s.finalized)
  {
    forall call | call in s.finalized ensures HasResult(tr', call) {
      HasResultStays(s.transcript, tr', call);
    }
  }

  /** Storing a final result once more. */
  lemma WithResultOk(records: map<string, Record>, transcript: seq<Entry>, call: string, result: Json)
    requires ResultsOk(records, transcript) && AnsweredOnce(transcript)
    requires call in records && Terminal(records[call]) && records[call].result == Some(result)
    ensures var after := WithResult(transcript, call, result);
      transcript <= after && ResultsOk(records, after) && AnsweredOnce(after) && HasResult(after, call)
  {
    WithResultHas(transcript, call, result, call);
  }

  lemma {:induction false} AnswerEachOk(records: map<string, Record>, transcript: seq<Entry>, order: seq<string>)
    requires RecordsOk(records) && ResultsOk(records, transcript) && AnsweredOnce(transcript)
    requires forall call :: call in order ==> call in records && Terminal(records[call])
    ensures var after := AnswerEach(records, transcript, order, CANCELLED_RESULT);
      transcript <= after && ResultsOk(records, after) && AnsweredOnce(after)
  {
    if order != [] {
      var last := |order| - 1;
      AnswerEachOk(records, transcript, order[..last]);
      var before := AnswerEach(records, transcript, order[..last], CANCELLED_RESULT);
      WithResultOk(records, before, order[last], StoredResult(records[order[last]], CANCELLED_RESULT));
    }
  }

  // ---------- Tasks ----------

  /** Task `t` becomes `task`, or is added, while records and transcript move forward. */
  lemma TasksMove(s: State, t: nat, task: Task, r': map<string, Record>, tr': seq<Entry>, free: set<string>)
    requires t <= |s.tasks| && TasksOk(s.records, s.transcript, s.tasks)
    requires Grows(s.records, r', free) && s.transcript <= tr'
    requires forall u :: 0 <= u < |s.tasks| && u != t && (s.tasks[u].Admitted? || IsResolution(s.tasks[u])) ==>
               s.tasks[u].call !in free
    requires TaskOk(r', tr', task)
    ensures TasksOk(r', tr', if t < |s.tasks| then s.tasks[t := task] else s.tasks + [task])
  {
    forall u | 0 <= u < |s.tasks| && u != t ensures TaskOk(r', tr', s.tasks[u]) {
      TaskStays(s.records, r', s.transcript, tr', s.tasks[u], free);
    }
  }

  /** A task that is neither admission, resolution nor a new attempt constrains nothing. */
  lemma StagesPut(s: State, t: nat, task: Task)
    requires t < |s.tasks| && StagesOk(s.tasks, s.admitting, s.admits) && AttemptsOk(s.tasks, s.attempts)
    requires IsAdmission(task) ==> IsAdmission(s.tasks[t]) && task.call == s.tasks[t].call
    requires IsResolution(task) ==> IsResolution(s.tasks[t]) && task.call == s.tasks[t].call
    requires !task.Executing?
    ensures StagesOk(s.tasks[t := task], s.admitting, s.admits) && AttemptsOk(s.tasks[t := task], s.attempts)
  {
    var after := s.tasks[t := task];
    forall u | 0 <= u < |after| ensures StageOk(after, u, s.admitting, s.admits) && AttemptOk(after, u, s.attempts) {
      assert StageOk(s.tasks, u, s.admitting, s.admits) && AttemptOk(s.tasks, u, s.attempts);
      assert StageOk(s.tasks, t, s.admitting, s.admits);
    }
  }

  lemma BodiesPut(s: State, t: nat, task: Task, retrySafe: set<string>)
    requires t < |s.tasks| && BodiesOk(s.tasks, s.attempts, s.bodies, retrySafe) && !task.Executing?
    ensures BodiesOk(s.tasks[t := task], s.attempts, s.bodies, retrySafe)
  {
    forall call | call !in retrySafe ensures BodyOk(s.tasks[t := task], s.attempts, s.bodies, call) {
      assert BodyOk(s.tasks, s.attempts, s.bodies, call);
    }
  }

  /** A task moves on, records move forward, and the transcript grows by checked results. */
  lemma SafePut(s: State, t: nat, task: Task, r': map<string, Record>, tr': seq<Entry>, free: set<string>,
        retrySafe: set<string>)
    requires Safe(s, retrySafe) && t < |s.tasks|
    requires Grows(s.records, r', free) && RecordsOk(r')
    requires s.transcript <= tr' && ResultsOk(r', tr') && AnsweredOnce(tr')
    requires forall call :: call in free ==> call !in s.admits && IsAdmission(s.tasks[t]) && call == s.tasks[t].call
    requires TaskOk(r', tr', task)
    requires IsAdmission(task) ==> IsAdmission(s.tasks[t]) && task.call == s.tasks[t].call
    requires IsResolution(task) ==> IsResolution(s.tasks[t]) && task.call == s.tasks[t].call
    requires !task.Executing?
    ensures Safe(Put(s, t, task).(records := r', transcript := tr'), retrySafe)
  {
    Stays(s, r', tr', free);
    forall u | 0 <= u < |s.tasks| && u != t
      && (s.tasks[u].Admitted? || IsResolution(s.tasks[u]))
      ensures s.tasks[u].call !in free
    {
      assert StageOk(s.tasks, u, s.admitting, s.admits);
    }
    TasksMove(s, t, task, r', tr', free);
    StagesPut(s, t, task);
    BodiesPut(s, t, task, retrySafe);
  }

  lemma SafePutOnly(s: State, t: nat, task: Task, retrySafe: set<string>)
    requires Safe(s, retrySafe) && t < |s.tasks|
    requires TaskOk(s.records, s.transcript, task)
    requires IsAdmission(task) ==> IsAdmission(s.tasks[t]) && task.call == s.tasks[t].call
    requires IsResolution(task) ==> IsResolution(s.tasks[t]) && task.call == s.tasks[t].call
    requires !task.Executing?
    ensures Safe(Put(s, t, task), retrySafe)
  {
    SafePut(s, t, task, s.records, s.transcript, {}, retrySafe);
    assert Put(s, t, task).(records := s.records, transcript := s.transcript) == Put(s, t, task);
  }

  lemma SafeSpawn(s: State, task: Task, retrySafe: set<string>)
    requires Safe(s, retrySafe) && TaskOk(s.records, s.transcript, task)
    requires !IsAdmission(task) && !task.Executing? && (IsResolution(task) ==> task.call in s.admits)
    ensures Safe(Spawn(s, task), retrySafe)
  {
    var after := s.tasks + [task];
    TasksMove(s, |s.tasks|, task, s.records, s.transcript, {});
    forall u | 0 <= u < |after| ensures StageOk(after, u, s.admitting, s.admits) && AttemptOk(after, u, s.attempts) {
      assert u < |s.tasks| ==> StageOk(s.tasks, u, s.admitting, s.admits) && AttemptOk(s.tasks, u, s.attempts);
    }
    forall call | call !in retrySafe ensures BodyOk(after, s.attempts, s.bodies, call) {
      assert BodyOk(s.tasks, s.attempts, s.bodies, call);
    }
  }

  // ---------- The steps ----------

  lemma SafeSay(s: State, calls: seq<string>, groupId: string, runId: string, retrySafe: set<string>)
    requires Safe(s, retrySafe) && WellFormed(s) && Allowed(s, Say(calls, groupId, runId))
    ensures Safe(Next(s, Say(calls, groupId, runId), retrySafe), retrySafe)
  {
    var r' := NewRecords(s.records, calls, groupId, runId);
    var tr' := s.transcript + [Said(calls)];
    assert Grows(s.records, r', {});
    Stays(s, r', tr', {});
    forall t | 0 <= t < |s.tasks| ensures TaskOk(r', tr', s.tasks[t]) {
      TaskStays(s.records, r', s.transcript, tr', s.tasks[t], {});
    }
  }

  lemma SafeStartAdmit(s: State, call: string, retrySafe: set<string>)
    requires Safe(s, retrySafe) && WellFormed(s) && Allowed(s, StartAdmit(call))
    ensures Safe(Next(s, StartAdmit(call), retrySafe), retrySafe)
  {
    hide AnsweredOnce, AdmitsOk, ReturnedOk, FinalizedOk, ResultsOk, RecordsOk, AllKnown;
    var after := s.tasks + [Admitting(call)];
    var admitting := s.admitting + {call};
    TasksMove(s, |s.tasks|, Admitting(call), s.records, s.transcript, {});
    forall w | 0 <= w < |s.tasks| && IsAdmission(s.tasks[w]) ensures after[w].call != call {
      assert StageOk(s.tasks, w, s.admitting, s.admits);
    }
    forall u | 0 <= u < |after| ensures StageOk(after, u, admitting, s.admits) && AttemptOk(after, u, s.attempts) {
      assert u < |s.tasks| ==> StageOk(s.tasks, u, s.admitting, s.admits) && AttemptOk(s.tasks, u, s.attempts);
    }
    forall c | c !in retrySafe ensures BodyOk(after, s.attempts, s.bodies, c) {
      assert BodyOk(s.tasks, s.attempts, s.bodies, c);
    }
  }

  lemma SafeAdmit(s: State, t: nat, status: Status, result: Option<Json>, decision: Decision, retrySafe: set<string>,
                  prompt: Option<string> := None, waitRequest: Option<Json> := None)
    requires Safe(s, retrySafe) && t < |s.tasks| && IsAdmission(s.tasks[t])
    requires s.tasks[t].call in s.records
    requires var to := Record("", "", status, result, None, None); RecordOk(to) && DecisionOk(to, decision)
    ensures Safe(Admit(s, t, s.tasks[t].call, status, result, decision, prompt, waitRequest), retrySafe)
  {
    hide AnsweredOnce, AdmitsOk, ReturnedOk, FinalizedOk, AttemptsOk, BodiesOk, ResultsOk;
    var call := s.tasks[t].call;
    var record := s.records[call];
    var r' := s.records[call := Updated(record, status, result, prompt, waitRequest)];
    assert StageOk(s.tasks, t, s.admitting, s.admits);
    assert RecordOk(record);
    Stays(s, r', s.transcript, {call});
    SafePut(s, t, Admitted(call, if Terminal(record) then Deny else decision), r', s.transcript, {call}, retrySafe);
  }

  lemma SafeReturnAdmit(s: State, t: nat, retrySafe: set<string>)
    requires Safe(s, retrySafe) && WellFormed(s) && Allowed(s, ReturnAdmit(t))
    ensures Safe(Next(s, ReturnAdmit(t), retrySafe), retrySafe)
  {
    var call := s.tasks[t].call;
    var put := Put(s, t, Gone);
    SafePutOnly(s, t, Gone, retrySafe);
    assert TaskOk(s.records, s.transcript, s.tasks[t]) && StageOk(s.tasks, t, s.admitting, s.admits);
    var admits := s.admits[call := s.tasks[t].decision];
    forall u | 0 <= u < |put.tasks| ensures StageOk(put.tasks, u, s.admitting, admits) {
      assert StageOk(put.tasks, u, s.admitting, s.admits);
    }
  }

  lemma SafeStartExecute(s: State, call: string, retrySafe: set<string>)
    requires Safe(s, retrySafe) && WellFormed(s) && Allowed(s, StartExecute(call))
    ensures Safe(Next(s, StartExecute(call), retrySafe), retrySafe)
  {
    hide AnsweredOnce, AdmitsOk, ReturnedOk, FinalizedOk, ResultsOk, RecordsOk, AllKnown;
    var attempt := Count(s.attempts, call) + 1;
    var attempts := s.attempts[call := attempt];
    var after := s.tasks + [Executing(call, attempt)];
    TasksMove(s, |s.tasks|, Executing(call, attempt), s.records, s.transcript, {});
    forall w | 0 <= w < |s.tasks| && s.tasks[w].Executing?
      && s.tasks[w].call == call
      ensures after[w].attempt < attempt
    {
      assert AttemptOk(s.tasks, w, s.attempts);
    }
    forall u | 0 <= u < |after| ensures StageOk(after, u, s.admitting, s.admits) && AttemptOk(after, u, attempts) {
      assert u < |s.tasks| ==> StageOk(s.tasks, u, s.admitting, s.admits) && AttemptOk(s.tasks, u, s.attempts);
    }
    forall c | c !in retrySafe ensures BodyOk(after, attempts, s.bodies, c) {
      assert BodyOk(s.tasks, s.attempts, s.bodies, c);
    }
  }

  /** The body starts: only a first attempt gets here when the tool cannot be retried. */
  lemma SafeBody(s: State, t: nat, retrySafe: set<string>)
    requires Safe(s, retrySafe) && t < |s.tasks| && s.tasks[t].Executing?
    requires s.tasks[t].attempt > 1 ==> s.tasks[t].call in retrySafe
    ensures var call := s.tasks[t].call;
      Safe(Put(s, t, InBody(call)).(bodies := s.bodies[call := Count(s.bodies, call) + 1]), retrySafe)
  {
    var call := s.tasks[t].call;
    var put := Put(s, t, InBody(call));
    assert TaskOk(s.records, s.transcript, s.tasks[t]) && AttemptOk(s.tasks, t, s.attempts);
    SafePutOnly(s, t, InBody(call), retrySafe);
    var bodies := s.bodies[call := Count(s.bodies, call) + 1];
    forall c | c !in retrySafe ensures BodyOk(put.tasks, s.attempts, bodies, c) {
      assert BodyOk(s.tasks, s.attempts, s.bodies, c);
      if c == call {
        forall u | 0 <= u < |put.tasks| && put.tasks[u].Executing?
          && put.tasks[u].call == call
          ensures put.tasks[u].attempt > 1
        {
          assert AttemptOk(s.tasks, u, s.attempts);
        }
      }
    }
  }

  lemma SafeReadExecute(s: State, t: nat, found: bool, retrySafe: set<string>)
    requires Safe(s, retrySafe) && WellFormed(s) && Allowed(s, ReadExecute(t, found))
    ensures Safe(Next(s, ReadExecute(t, found), retrySafe), retrySafe)
  {
    hide AnsweredOnce, AdmitsOk, ReturnedOk, FinalizedOk, StagesOk, AttemptsOk, BodiesOk, AllKnown, ResultsOk,
        RecordsOk;
    var call := s.tasks[t].call;
    assert TaskOk(s.records, s.transcript, s.tasks[t]);
    if Terminal(s.records[call]) {
      SafePutOnly(s, t, Wrote(OutcomeFromRecord(call, s.records[call])), retrySafe);
    } else if !found {
      SafePutOnly(s, t, Writing(call, Fail("Tool not found")), retrySafe);
    } else if s.tasks[t].attempt > 1 && call !in retrySafe {
      SafePutOnly(s, t, Writing(call, Fail(TOOL_INTERRUPTED)), retrySafe);
    } else {
      SafeBody(s, t, retrySafe);
    }
  }

  lemma DictReports(call: string, result: ToolResult, record: Record)
    requires result.error != Some("") && record.result == Some(Dict(call, result))
    ensures OutcomeFromRecord(call, record) == OutcomeOf(call, result)
  {
    var r := result.(toolCallId := Some(call));
    StoredOutcomeReadsBack(call, r, record);
    assert OutcomeOf(call, r) == OutcomeOf(call, result);
  }

  lemma SafeFinish(s: State, t: nat, result: ToolResult, accepted: bool, retrySafe: set<string>)
    requires Safe(s, retrySafe) && t < |s.tasks| && (s.tasks[t].Writing? || s.tasks[t].Resolved?)
    requires result == s.tasks[t].result && s.tasks[t].call in s.records
    requires accepted == !Terminal(s.records[s.tasks[t].call])
    ensures var call := s.tasks[t].call;
      Safe(Finish(s, t, call, result, accepted,
          Updated(s.records[call], FinalStatus(result), Some(Dict(call, result)))), retrySafe)
  {
    hide AnsweredOnce, AdmitsOk, ReturnedOk, FinalizedOk, StagesOk, AttemptsOk, BodiesOk, AllKnown, ResultsOk;
    var call := s.tasks[t].call;
    var record := Updated(s.records[call], FinalStatus(result), Some(Dict(call, result)));
    var r' := s.records[call := record];
    assert TaskOk(s.records, s.transcript, s.tasks[t]);
    assert RecordOk(s.records[call]);
    assert Grows(s.records, r', {});
    Stays(s, r', s.transcript, {});
    if accepted {
      DictReports(call, result, record);
      SafePut(s, t, Wrote(OutcomeOf(call, result)), r', s.transcript, {}, retrySafe);
    } else {
      SafePut(s, t, Rereading(call), r', s.transcript, {}, retrySafe);
    }
  }

  lemma SafeWriteResolve(s: State, t: nat, retrySafe: set<string>)
    requires Safe(s, retrySafe) && WellFormed(s) && Allowed(s, WriteResolve(t))
    ensures Safe(Next(s, WriteResolve(t), retrySafe), retrySafe)
  {
    var call := s.tasks[t].call;
    assert TaskOk(s.records, s.transcript, s.tasks[t]);
    SafeFinish(s, t, s.tasks[t].result, s.records[call].status.Waiting?, retrySafe);
  }

  lemma SafeReadResolve(s: State, t: nat, result: ToolResult, retrySafe: set<string>)
    requires Safe(s, retrySafe) && WellFormed(s) && Allowed(s, ReadResolve(t, result))
    ensures Safe(Next(s, ReadResolve(t, result), retrySafe), retrySafe)
  {
    hide AnsweredOnce, AdmitsOk, ReturnedOk, FinalizedOk, StagesOk, AttemptsOk, BodiesOk, AllKnown, ResultsOk,
        RecordsOk;
    var call := s.tasks[t].call;
    assert TaskOk(s.records, s.transcript, s.tasks[t]);
    if Terminal(s.records[call]) {
      SafePutOnly(s, t, Wrote(OutcomeFromRecord(call, s.records[call])), retrySafe);
    } else {
      SafePutOnly(s, t, Resolved(call, result), retrySafe);
    }
  }

  /** Every call of the group has returned, so every record of it is final. */
  lemma SafeStartGroup(s: State, groupId: string, order: seq<string>, retrySafe: set<string>)
    requires Safe(s, retrySafe) && WellFormed(s) && Allowed(s, StartGroup(groupId, order))
    ensures Safe(Next(s, StartGroup(groupId, order), retrySafe), retrySafe)
  {
    forall call | call in order ensures call in s.records && Terminal(s.records[call]) && RecordOk(s.records[call]) {
      assert call in OfGroup(s.records, groupId);
      assert Settled(s.admits, s.returned, call);
    }
    SafeSpawn(s, Group(groupId, s.records, order, 0), retrySafe);
  }

  lemma SafeAppendInGroup(s: State, t: nat, retrySafe: set<string>)
    requires Safe(s, retrySafe) && WellFormed(s) && Allowed(s, AppendInGroup(t))
    ensures Safe(Next(s, AppendInGroup(t), retrySafe), retrySafe)
  {
    hide AnsweredOnce, AdmitsOk, ReturnedOk, FinalizedOk, StagesOk, AttemptsOk, BodiesOk, AllKnown, ResultsOk;
    var task := s.tasks[t];
    var call := task.order[task.next];
    assert TaskOk(s.records, s.transcript, task);
    assert call in task.order;
    var result := StoredResult(task.snapshot[call], NO_RESULT);
    WithResultOk(s.records, s.transcript, call, result);
    var tr' := WithResult(s.transcript, call, result);
    TaskStays(s.records, s.records, s.transcript, tr', task, {});
    SafePut(s, t, Group(task.group, task.snapshot, task.order, task.next + 1), s.records, tr', {}, retrySafe);
  }

  lemma SafeFinalized(s: State, t: nat, retrySafe: set<string>)
    requires Safe(s, retrySafe) && t < |s.tasks| && (s.tasks[t].Group? || s.tasks[t].Closing?)
    requires s.tasks[t].next == |s.tasks[t].order|
    ensures Safe(Put(s, t, Gone).(finalized := s.finalized + ToSet(s.tasks[t].order)), retrySafe)
  {
    assert TaskOk(s.records, s.transcript, s.tasks[t]);
    SafePutOnly(s, t, Gone, retrySafe);
  }

  /** A record that was open when the run's records were listed is closed, or already was. */
  lemma SafeCloseOpen(s: State, t: nat, call: string, retrySafe: set<string>)
    requires Safe(s, retrySafe) && t < |s.tasks| && s.tasks[t].Closing? && !s.tasks[t].closed
    requires s.tasks[t].next < |s.tasks[t].order| && call == s.tasks[t].order[s.tasks[t].next]
    requires call in s.records && call in s.tasks[t].snapshot
    ensures Safe(CloseOne(s, t, s.tasks[t], call), retrySafe)
  {
    hide AnsweredOnce, AdmitsOk, ReturnedOk, FinalizedOk, StagesOk, AttemptsOk, BodiesOk, ResultsOk;
    var task := s.tasks[t];
    assert TaskOk(s.records, s.transcript, task);
    assert call in task.order;
    if Terminal(task.snapshot[call]) {
      SafePutOnly(s, t, task.(closed := true), retrySafe);
    } else {
      assert RecordOk(s.records[call]);
      var r' := s.records[call := CloseInRun(s.records[call], task.cancelled, task.reason)];
      assert Grows(s.records, r', {});
      Stays(s, r', s.transcript, {});
      TaskStays(s.records, r', s.transcript, s.transcript, task, {});
      SafePut(s, t, task.(closed := true), r', s.transcript, {}, retrySafe);
    }
  }

  lemma SafeUpdateInClosing(s: State, t: nat, retrySafe: set<string>)
    requires Safe(s, retrySafe) && WellFormed(s) && Allowed(s, UpdateInClosing(t))
    ensures Safe(Next(s, UpdateInClosing(t), retrySafe), retrySafe)
  {
    hide Safe, CloseOne;
    var task := s.tasks[t];
    assert Known(s.records, task);
    assert task.order[task.next] in task.order;
    SafeCloseOpen(s, t, task.order[task.next], retrySafe);
  }

  lemma SafeAppendInClosing(s: State, t: nat, retrySafe: set<string>)
    requires Safe(s, retrySafe) && WellFormed(s) && Allowed(s, AppendInClosing(t))
    ensures Safe(Next(s, AppendInClosing(t), retrySafe), retrySafe)
  {
    hide AnsweredOnce, AdmitsOk, ReturnedOk, FinalizedOk, StagesOk, AttemptsOk, BodiesOk, AllKnown, ResultsOk;
    var task := s.tasks[t];
    var call := task.order[task.next];
    assert TaskOk(s.records, s.transcript, task);
    assert call in task.order;
    assert RecordOk(s.records[call]);
    var result := s.records[call].result.value;
    WithResultOk(s.records, s.transcript, call, result);
    var tr' := WithResult(s.transcript, call, result);
    TaskStays(s.records, s.records, s.transcript, tr', task, {});
    SafePut(s, t, Closing(task.cancelled, task.reason, task.snapshot, task.order, task.next + 1, false), s.records,
        tr', {}, retrySafe);
  }

  lemma SafeCancelThread(s: State, order: seq<string>, retrySafe: set<string>)
    requires Safe(s, retrySafe) && WellFormed(s) && Allowed(s, CancelThread(order))
    ensures Safe(Next(s, CancelThread(order), retrySafe), retrySafe)
  {
    var r' := CloseAll(s.records);
    forall call | call in s.records ensures RecordOk(r'[call]) && Moves(s.records[call], r'[call], false) {
      assert RecordOk(s.records[call]);
    }
    assert Grows(s.records, r', {});
    var tr' := AnswerEach(r', s.transcript, order, CANCELLED_RESULT);
    AnswerEachAnswers(r', s.transcript, order, CANCELLED_RESULT);
    Stays(s, r', tr', {});
    AnswerEachOk(r', s.transcript, order);
    forall t | 0 <= t < |s.tasks| ensures TaskOk(r', tr', s.tasks[t]) {
      TaskStays(s.records, r', s.transcript, tr', s.tasks[t], {});
    }
  }

  lemma SafeWriteAdmit(s: State, t: nat, verdict: Verdict, retrySafe: set<string>)
    requires Safe(s, retrySafe) && WellFormed(s) && Allowed(s, WriteAdmit(t, verdict))
    ensures Safe(Next(s, WriteAdmit(t, verdict), retrySafe), retrySafe)
  {
    match verdict
    case Allowing => SafeAdmit(s, t, Running, None, Execute, retrySafe);
    case Asking(prompt, waitRequest) => SafeAdmit(s, t, Waiting, None, Await, retrySafe, Some(prompt), waitRequest);
    case Refusing(reason) =>
      SafeAdmit(s, t, Blocked, Some(Dict(s.tasks[t].call, Fail(if reason == "" then "Tool call denied" else reason))),
          Deny, retrySafe);
  }

  lemma SafeEnd(s: State, step: Step, retrySafe: set<string>)
    requires Safe(s, retrySafe) && WellFormed(s) && Allowed(s, step) && (step.EndGroup? || step.EndClosing?)
    ensures Safe(Next(s, step, retrySafe), retrySafe)
  {
    SafeFinalized(s, step.t, retrySafe);
  }

  predicate MovesTask(step: Step) {
    step.EndBody? || step.FailExecute? || step.Reread? || step.Lose?
  }

  /** Steps that only move a task on. */
  lemma SafeMove(s: State, step: Step, retrySafe: set<string>)
    requires Safe(s, retrySafe) && WellFormed(s) && Allowed(s, step) && MovesTask(step)
    ensures Safe(Next(s, step, retrySafe), retrySafe)
  {
    hide AnsweredOnce, AdmitsOk, ReturnedOk, FinalizedOk, StagesOk, AttemptsOk, BodiesOk, AllKnown, ResultsOk,
        RecordsOk;
    var task := s.tasks[step.t];
    assert TaskOk(s.records, s.transcript, task);
    var moved := match step
      case EndBody(t, result) => Writing(task.call, result)
      case FailExecute(t, reason) => Writing(if task.Wrote? then task.outcome.call else task.call, Fail(reason))
      case Reread(t) => Wrote(OutcomeFromRecord(task.call, s.records[task.call]))
      case _ => Gone;
    SafePutOnly(s, step.t, moved, retrySafe);
  }

  lemma SafeReturn(s: State, t: nat, retrySafe: set<string>)
    requires Safe(s, retrySafe) && WellFormed(s) && Allowed(s, Return(t))
    ensures Safe(Next(s, Return(t), retrySafe), retrySafe)
  {
    assert TaskOk(s.records, s.transcript, s.tasks[t]);
    SafePutOnly(s, t, Gone, retrySafe);
  }

  lemma SafeStartResolve(s: State, call: string, retrySafe: set<string>)
    requires Safe(s, retrySafe) && WellFormed(s) && Allowed(s, StartResolve(call))
    ensures Safe(Next(s, StartResolve(call), retrySafe), retrySafe)
  {
    SafeSpawn(s, Resolving(call), retrySafe);
  }

  lemma SafeStartClosing(s: State, runId: string, cancelled: bool, reason: string, order: seq<string>,
        retrySafe: set<string>)
    requires Safe(s, retrySafe) && WellFormed(s) && Allowed(s, StartClosing(runId, cancelled, reason, order))
    ensures Safe(Next(s, StartClosing(runId, cancelled, reason, order), retrySafe), retrySafe)
  {
    assert forall call :: call in OfRun(s.records, runId) ==> call in s.records;
    SafeSpawn(s, Closing(cancelled, reason, s.records, order, 0, false), retrySafe);
  }

  lemma SafeWriteExecute(s: State, t: nat, retrySafe: set<string>)
    requires Safe(s, retrySafe) && WellFormed(s) && Allowed(s, WriteExecute(t))
    ensures Safe(Next(s, WriteExecute(t), retrySafe), retrySafe)
  {
    assert Known(s.records, s.tasks[t]);
    SafeFinish(s, t, s.tasks[t].result, !Terminal(s.records[s.tasks[t].call]), retrySafe);
  }

  lemma SafeFailAdmit(s: State, t: nat, reason: string, retrySafe: set<string>)
    requires Safe(s, retrySafe) && WellFormed(s) && Allowed(s, FailAdmit(t, reason))
    ensures Safe(Next(s, FailAdmit(t, reason), retrySafe), retrySafe)
  {
    SafeAdmit(s, t, Blocked, Some(Dict(s.tasks[t].call, Fail(reason))), Deny, retrySafe);
  }

  lemma SafeNext(s: State, step: Step, retrySafe: set<string>)
    requires Safe(s, retrySafe) && WellFormed(s) && Allowed(s, step)
    ensures Safe(Next(s, step, retrySafe), retrySafe)
  {
    hide Safe, Next, WellFormed, AllKnown;
    match step
    case Say(calls, groupId, runId) => SafeSay(s, calls, groupId, runId, retrySafe);
    case StartAdmit(call) => SafeStartAdmit(s, call, retrySafe);
    case WriteAdmit(t, verdict) => SafeWriteAdmit(s, t, verdict, retrySafe);
    case FailAdmit(t, reason) => SafeFailAdmit(s, t, reason, retrySafe);
    case ReturnAdmit(t) => SafeReturnAdmit(s, t, retrySafe);
    case StartExecute(call) => SafeStartExecute(s, call, retrySafe);
    case ReadExecute(t, found) => SafeReadExecute(s, t, found, retrySafe);
    case WriteExecute(t) => SafeWriteExecute(s, t, retrySafe);
    case StartResolve(call) => SafeStartResolve(s, call, retrySafe);
    case ReadResolve(t, result) => SafeReadResolve(s, t, result, retrySafe);
    case WriteResolve(t) => SafeWriteResolve(s, t, retrySafe);
    case Return(t) => SafeReturn(s, t, retrySafe);
    case StartGroup(groupId, order) => SafeStartGroup(s, groupId, order, retrySafe);
    case AppendInGroup(t) => SafeAppendInGroup(s, t, retrySafe);
    case EndGroup(t) => SafeEnd(s, step, retrySafe);
    case StartClosing(runId, cancelled, reason, order) => SafeStartClosing(s, runId, cancelled, reason, order,
        retrySafe);
    case UpdateInClosing(t) => SafeUpdateInClosing(s, t, retrySafe);
    case AppendInClosing(t) => SafeAppendInClosing(s, t, retrySafe);
    case EndClosing(t) => SafeEnd(s, step, retrySafe);
    case CancelThread(order) => SafeCancelThread(s, order, retrySafe);
    case _ => SafeMove(s, step, retrySafe);
  }
}
