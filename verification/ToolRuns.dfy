/** Tool calls over every schedule: admissions, execution attempts that are lost and retried,
    resolutions, cancellation and finalization all race on the records and one transcript.
    Every store call is one step. */
module ToolRuns {
  import opened Messages
  import opened ToolRecords

  datatype Decision = Execute | Await | Deny

  datatype Verdict = Allowing | Asking(prompt: string, waitRequest: Option<Json>) | Refusing(reason: string)

  /** An activity in flight, where its next store call is. */
  datatype Task =
    | Admitting(call: string)
    | Admitted(call: string, decision: Decision)
    | Executing(call: string, attempt: nat)
    | InBody(call: string)
    | Writing(call: string, result: ToolResult)
    | Resolving(call: string)
    | Resolved(call: string, result: ToolResult)
    | Rereading(call: string)
    | Wrote(outcome: Outcome)
    | Group(group: string, snapshot: map<string, Record>, order: seq<string>, next: nat)
    | Closing(cancelled: bool, reason: string, snapshot: map<string, Record>, order: seq<string>, next: nat,
        closed: bool)
    | Gone

  datatype State = State(
    records: map<string, Record>,
    transcript: seq<Entry>,
    tasks: seq<Task>,
    admitting: set<string>,
    admits: map<string, Decision>,
    resolving: set<string>,
    attempts: map<string, nat>,
    bodies: map<string, nat>,
    returned: set<Outcome>,
    /** Calls of a finished group, or of a run closed as cancelled or failed. */
    finalized: set<string>)

  const Init := State(map[], [], [], {}, map[], {}, map[], map[], {}, {})

  datatype Step =
    | Say(calls: seq<string>, groupId: string, runId: string)
    | StartAdmit(call: string)
    | WriteAdmit(t: nat, verdict: Verdict)
    | FailAdmit(t: nat, reason: string)
    | ReturnAdmit(t: nat)
    | StartExecute(call: string)
    | ReadExecute(t: nat, found: bool)
    | EndBody(t: nat, result: ToolResult)
    | WriteExecute(t: nat)
    | FailExecute(t: nat, reason: string)
    | StartResolve(call: string)
    | ReadResolve(t: nat, result: ToolResult)
    | WriteResolve(t: nat)
    | Reread(t: nat)
    | Return(t: nat)
    | StartGroup(groupId: string, order: seq<string>)
    | AppendInGroup(t: nat)
    | EndGroup(t: nat)
    | StartClosing(runId: string, cancelled: bool, reason: string, order: seq<string>)
    | UpdateInClosing(t: nat)
    | AppendInClosing(t: nat)
    | EndClosing(t: nat)
    | CancelThread(order: seq<string>)
    | Lose(t: nat)

  const TOOL_INTERRUPTED := "interrupted: the worker running this call stopped before it returned"

  // ---------- The steps ----------

  function Count(counts: map<string, nat>, call: string): nat {
    if call in counts then counts[call] else 0
  }

  function Dict(call: string, result: ToolResult): Json {
    Object(ToDict(result.(toolCallId := Some(call))))
  }

  function FinalStatus(result: ToolResult): Status {
    if result.error.None? then Completed else Failed
  }

  function Put(s: State, t: nat, task: Task): State
    requires t < |s.tasks|
  {
    s.(tasks := s.tasks[t := task])
  }

  function Spawn(s: State, task: Task): State {
    s.(tasks := s.tasks + [task])
  }

  function Write(s: State, call: string, record: Record): State {
    s.(records := s.records[call := record])
  }

  function NewRecords(records: map<string, Record>, calls: seq<string>, groupId: string, runId: string): map<string,
        Record> {
    records + map call | call in calls :: Record(groupId, runId, Requested, None, None, None)
  }

  /** The workflow has this call's outcome. */
  ghost predicate Settled(admits: map<string, Decision>, returned: set<Outcome>, call: string) {
    (call in admits && admits[call].Deny?) || exists outcome :: outcome in returned && outcome.call == call
  }

  /** What may come next: call and group ids are new, a call is admitted once and resolved once,
      attempts follow an admission, and a group is finalized when all its calls have returned. */
  ghost predicate Allowed(s: State, step: Step) {
    match step
    case Say(calls, groupId, runId) =>
      && (forall k :: 0 <= k < |calls| ==> calls[k] !in s.records)
      && (forall call :: call in s.records ==> s.records[call].groupId != groupId)
    case StartAdmit(call) => call in s.records && call !in s.admitting
    case WriteAdmit(t, verdict) => t < |s.tasks| && s.tasks[t].Admitting?
    case FailAdmit(t, reason) => t < |s.tasks| && (s.tasks[t].Admitting? || s.tasks[t].Admitted?) && reason != ""
    case ReturnAdmit(t) => t < |s.tasks| && s.tasks[t].Admitted?
    case StartExecute(call) => call in s.admits && s.admits[call].Execute?
    case ReadExecute(t, found) => t < |s.tasks| && s.tasks[t].Executing?
    case EndBody(t, result) => t < |s.tasks| && s.tasks[t].InBody? && result.error != Some("")
    case WriteExecute(t) => t < |s.tasks| && s.tasks[t].Writing?
    case FailExecute(t, reason) =>
      t < |s.tasks| && (s.tasks[t].Executing? || s.tasks[t].InBody? || s.tasks[t].Writing? || s.tasks[t].Wrote?)
          && reason != ""
    case StartResolve(call) => call in s.admits && s.admits[call].Await? && call !in s.resolving
    case ReadResolve(t, result) => t < |s.tasks| && s.tasks[t].Resolving? && result.error != Some("")
    case WriteResolve(t) => t < |s.tasks| && s.tasks[t].Resolved?
    case Reread(t) => t < |s.tasks| && s.tasks[t].Rereading?
    case Return(t) => t < |s.tasks| && s.tasks[t].Wrote?
    case StartGroup(groupId, order) =>
      && Lists(order, OfGroup(s.records, groupId))
      && forall call :: call in order ==> Settled(s.admits, s.returned, call)
    case AppendInGroup(t) => t < |s.tasks| && s.tasks[t].Group? && s.tasks[t].next < |s.tasks[t].order|
    case EndGroup(t) => t < |s.tasks| && s.tasks[t].Group? && s.tasks[t].next == |s.tasks[t].order|
    case StartClosing(runId, cancelled, reason, order) => Lists(order, OfRun(s.records, runId))
    case UpdateInClosing(t) =>
      t < |s.tasks| && s.tasks[t].Closing? && !s.tasks[t].closed && s.tasks[t].next < |s.tasks[t].order|
    case AppendInClosing(t) =>
      t < |s.tasks| && s.tasks[t].Closing? && s.tasks[t].closed && s.tasks[t].next < |s.tasks[t].order|
    case EndClosing(t) => t < |s.tasks| && s.tasks[t].Closing? && s.tasks[t].next == |s.tasks[t].order|
    case CancelThread(order) => ListsUnanswered(CloseAll(s.records), s.transcript, order)
    case Lose(t) => t < |s.tasks|
  }

  /** An admission's write, and the decision it leaves: a record already final refuses it. */
  function Admit(s: State, t: nat, call: string, status: Status, result: Option<Json>, decision: Decision,
                 prompt: Option<string> := None, waitRequest: Option<Json> := None): State
    requires t < |s.tasks| && call in s.records
  {
    var refused := Terminal(s.records[call]);
    Write(Put(s, t, Admitted(call, if refused then Deny else decision)), call,
          Updated(s.records[call], status, result, prompt, waitRequest))
  }

  /** The attempt's final write: it reports its own result, or reads what won. */
  function Finish(s: State, t: nat, call: string, result: ToolResult, accepted: bool, record: Record): State
    requires t < |s.tasks| && call in s.records
  {
    Write(Put(s, t, if accepted then Wrote(OutcomeOf(call, result)) else Rereading(call)), call, record)
  }

  function WriteVerdict(s: State, t: nat, call: string, verdict: Verdict): State
    requires t < |s.tasks| && call in s.records
  {
    match verdict
    case Allowing => Admit(s, t, call, Running, None, Execute)
    case Asking(prompt, waitRequest) => Admit(s, t, call, Waiting, None, Await, Some(prompt), waitRequest)
    case Refusing(reason) =>
      Admit(s, t, call, Blocked, Some(Dict(call, Fail(if reason == "" then "Tool call denied" else reason))), Deny)
  }

  /** An attempt reads its record: it may be over, or this tool may not be run again. */
  function ReadAttempt(s: State, t: nat, call: string, attempt: nat, found: bool, retrySafe: set<string>): (r: State)
    requires t < |s.tasks| && call in s.records
    ensures r.records == s.records
  {
    if Terminal(s.records[call]) then Put(s, t, Wrote(OutcomeFromRecord(call, s.records[call])))
    else if !found then Put(s, t, Writing(call, Fail("Tool not found")))
    else if attempt > 1 && call !in retrySafe then Put(s, t, Writing(call, Fail(TOOL_INTERRUPTED)))
    else Put(s, t, InBody(call)).(bodies := s.bodies[call := Count(s.bodies, call) + 1])
  }

  function ReadWaiting(s: State, t: nat, call: string, result: ToolResult): (r: State)
    requires t < |s.tasks| && call in s.records
    ensures r.records == s.records
  {
    var record := s.records[call];
    if Terminal(record) then Put(s, t, Wrote(OutcomeFromRecord(call, record)))
    else if !record.status.Waiting? then Put(s, t, Writing(call, Fail("Tool call is not waiting")))
    else Put(s, t, Resolved(call, result))
  }

  function WriteResult(s: State, t: nat, call: string, result: ToolResult): State
    requires t < |s.tasks| && call in s.records
  {
    Finish(s, t, call, result, !Terminal(s.records[call]),
        Updated(s.records[call], FinalStatus(result), Some(Dict(call, result))))
  }

  function WriteResolution(s: State, t: nat, call: string, result: ToolResult): State
    requires t < |s.tasks| && call in s.records
  {
    Finish(s, t, call, result, s.records[call].status.Waiting?,
           FinishedWaiting(s.records[call], FinalStatus(result), Dict(call, result)))
  }

  function AppendResult(s: State, t: nat, task: Task, call: string, result: Json): (r: State)
    requires t < |s.tasks|
    ensures r.records == s.records
  {
    Put(s, t, task).(transcript := WithResult(s.transcript, call, result))
  }

  /** A record of the snapshot that was still open is closed. */
  function CloseOne(s: State, t: nat, task: Task, call: string): State
    requires t < |s.tasks| && task.Closing? && call in s.records && call in task.snapshot
  {
    var after := Put(s, t, task.(closed := true));
    if Terminal(task.snapshot[call]) then after
    else Write(after, call, CloseInRun(s.records[call], task.cancelled, task.reason))
  }

  function Next(s: State, step: Step, retrySafe: set<string>): State
    requires WellFormed(s)
    requires Allowed(s, step)
  {
    match step
    case Say(calls, groupId, runId) =>
      s.(records := NewRecords(s.records, calls, groupId, runId), transcript := s.transcript + [Said(calls)])
    case StartAdmit(call) => Spawn(s, Admitting(call)).(admitting := s.admitting + {call})
    case WriteAdmit(t, verdict) => WriteVerdict(s, t, s.tasks[t].call, verdict)
    case FailAdmit(t, reason) => Admit(s, t, s.tasks[t].call, Blocked, Some(Dict(s.tasks[t].call, Fail(reason))), Deny)
    case ReturnAdmit(t) => Put(s, t, Gone).(admits := s.admits[s.tasks[t].call := s.tasks[t].decision])
    case StartExecute(call) =>
      var attempt := Count(s.attempts, call) + 1;
      Spawn(s, Executing(call, attempt)).(attempts := s.attempts[call := attempt])
    case ReadExecute(t, found) => ReadAttempt(s, t, s.tasks[t].call, s.tasks[t].attempt, found, retrySafe)
    case EndBody(t, result) => Put(s, t, Writing(s.tasks[t].call, result))
    case WriteExecute(t) => WriteResult(s, t, s.tasks[t].call, s.tasks[t].result)
    case FailExecute(t, reason) =>
      Put(s, t, Writing(if s.tasks[t].Wrote? then s.tasks[t].outcome.call else s.tasks[t].call, Fail(reason)))
    case StartResolve(call) => Spawn(s, Resolving(call)).(resolving := s.resolving + {call})
    case ReadResolve(t, result) => ReadWaiting(s, t, s.tasks[t].call, result)
    case WriteResolve(t) => WriteResolution(s, t, s.tasks[t].call, s.tasks[t].result)
    case Reread(t) => Put(s, t, Wrote(OutcomeFromRecord(s.tasks[t].call, s.records[s.tasks[t].call])))
    case Return(t) => Put(s, t, Gone).(returned := s.returned + {s.tasks[t].outcome})
    case StartGroup(groupId, order) => Spawn(s, Group(groupId, s.records, order, 0))
    case AppendInGroup(t) =>
      var task := s.tasks[t];
      var call := task.order[task.next];
      AppendResult(s, t, Group(task.group, task.snapshot, task.order, task.next + 1), call,
          StoredResult(task.snapshot[call], NO_RESULT))
    case EndGroup(t) => Put(s, t, Gone).(finalized := s.finalized + ToSet(s.tasks[t].order))
    case StartClosing(runId, cancelled, reason, order) => Spawn(s,
        Closing(cancelled, reason, s.records, order, 0, false))
    case UpdateInClosing(t) => CloseOne(s, t, s.tasks[t], s.tasks[t].order[s.tasks[t].next])
    case AppendInClosing(t) =>
      var task := s.tasks[t];
      var call := task.order[task.next];
      AppendResult(s, t, task.(next := task.next + 1, closed := false), call,
                   if s.records[call].result.Some? then s.records[call].result.value else NO_RESULT)
    case EndClosing(t) => Put(s, t, Gone).(finalized := s.finalized + ToSet(s.tasks[t].order))
    case CancelThread(order) =>
      s.(records := CloseAll(s.records),
          transcript := AnswerEach(CloseAll(s.records), s.transcript, order, CANCELLED_RESULT))
    case Lose(t) => Put(s, t, Gone)
  }

  function ToSet(calls: seq<string>): set<string> {
    set k | 0 <= k < |calls| :: calls[k]
  }

  /** Tasks speak of recorded calls. */
  ghost predicate Known(records: map<string, Record>, task: Task) {
    match task
    case Wrote(outcome) => outcome.call in records
    case Group(_, snapshot, order, next) =>
      next <= |order| && forall call :: call in order ==> call in records && call in snapshot
    case Closing(_, _, snapshot, order, next, _) =>
      next <= |order| && forall call :: call in order ==> call in records && call in snapshot
    case Gone => true
    case _ => task.call in records
  }

  ghost predicate AllKnown(records: map<string, Record>, tasks: seq<Task>) {
    forall t :: 0 <= t < |tasks| ==> Known(records, tasks[t])
  }

  ghost predicate WellFormed(s: State) {
    && AllKnown(s.records, s.tasks)
    && s.admits.Keys <= s.admitting <= s.records.Keys
  }
}
