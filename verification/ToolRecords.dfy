/** Tool call records: their statuses, the results they store, and what an attempt reports of
    them. */
module ToolRecords {
  import opened Messages

  datatype Json =
    | Null
    | Flag(on: bool)
    | Number(n: int)
    | Text(text: string)
    | List(items: seq<Json>)
    | Object(fields: map<string, Json>)

  /** A value as a condition reads it. */
  predicate Truthy(value: Json) {
    match value
    case Null => false
    case Flag(on) => on
    case Number(n) => n != 0
    case Text(text) => text != ""
    case List(items) => items != []
    case Object(fields) => fields != map[]
  }

  function Field(fields: map<string, Json>, name: string): Json {
    if name in fields then fields[name] else Null
  }

  datatype ToolResult = ToolResult(
    output: Json,
    error: Option<string>,
    toolCallId: Option<string>,
    metadata: map<string, Json>,
    contentBlocks: Option<seq<Json>>)

  function Fail(reason: string): ToolResult {
    ToolResult(Null, Some(reason), None, map[], None)
  }

  function ToDict(r: ToolResult): map<string, Json> {
    var start: map<string, Json> :=
      if r.toolCallId.Some? && r.toolCallId.value != "" then map["tool_call_id" := Text(r.toolCallId.value)] else map[];
    var body := if r.error.Some? && r.error.value != "" then start["error" := Text(r.error.value)]
        else start["result" := r.output];
    var described := if r.metadata != map[] then body["metadata" := Object(r.metadata)] else body;
    if r.contentBlocks.Some? && r.contentBlocks.value != []
        then described["content_blocks" := List(r.contentBlocks.value)]
    else described
  }

  /** What a stored result holds, field by field: an error or an output, and the rest when there is any. */
  lemma StoredFields(r: ToolResult)
    ensures var stored := ToDict(r);
      && ("error" in stored <==> r.error.Some? && r.error.value != "")
      && ("error" in stored ==> stored["error"] == Text(r.error.value))
      && ("result" in stored <==> "error" !in stored) && ("result" in stored ==> stored["result"] == r.output)
      && ("metadata" in stored <==> r.metadata != map[])
      && ("metadata" in stored ==> stored["metadata"] == Object(r.metadata))
      && ("tool_call_id" in stored <==> r.toolCallId.Some? && r.toolCallId.value != "")
      && ("tool_call_id" in stored ==> stored["tool_call_id"] == Text(r.toolCallId.value))
      && ("content_blocks" in stored <==> r.contentBlocks.Some? && r.contentBlocks.value != [])
      && ("content_blocks" in stored ==> stored["content_blocks"] == List(r.contentBlocks.value))
  {
  }

  // ---------- Records ----------

  datatype Status = Requested | Running | Waiting | Completed | Blocked | Failed

  /** The store keeps results as they are written; `None` is a call that has none. */
  datatype Record = Record(
    groupId: string,
    runId: string,
    status: Status,
    result: Option<Json>,
    prompt: Option<string>,
    waitRequest: Option<Json>)

  predicate Terminal(record: Record) {
    record.status.Completed? || record.status.Blocked? || record.status.Failed?
  }

  function ResultFromRecord(call: string, record: Record): ToolResult {
    var raw := if record.result.Some? && record.result.value.Object? then record.result.value.fields else map[];
    var metadata := if Field(raw, "metadata").Object? then Field(raw, "metadata").fields else map[];
    if Field(raw, "error").Text? then ToolResult(Null, Some(Field(raw, "error").text), Some(call), metadata, None)
    else ToolResult(Field(raw, "result"), None, Some(call), metadata, None)
  }

  /** What an attempt reports to the workflow. */
  datatype Outcome = Outcome(call: string, completed: bool, terminal: bool)

  function OutcomeOf(call: string, r: ToolResult): Outcome {
    Outcome(call, r.error.None?, Truthy(Field(r.metadata, "terminal")))
  }

  function OutcomeFromRecord(call: string, record: Record): Outcome {
    OutcomeOf(call, ResultFromRecord(call, record))
  }

  /** Reading back a stored result gives it again exactly when it has no empty error, a failure
      has no output, and no content blocks are set. */
  lemma StoredResultReadsBack(call: string, r: ToolResult, record: Record)
    requires record.result == Some(Object(ToDict(r)))
    ensures ResultFromRecord(call, record) == r.(toolCallId := Some(call))
            <==> r.error != Some("") && (r.error.Some? ==> r.output.Null?) && r.contentBlocks.None?
  {
  }

  /** What an attempt reports of its own result is what every later one reads from the record,
      exactly when the error is not the empty string. */
  lemma StoredOutcomeReadsBack(call: string, r: ToolResult, record: Record)
    requires record.result == Some(Object(ToDict(r)))
    ensures OutcomeFromRecord(call, record) == OutcomeOf(call, r) <==> r.error != Some("")
  {
  }

  /** An empty error is stored as a failure and read back as a success. */
  lemma EmptyErrorTurnsToSuccess(call: string, groupId: string, runId: string)
    ensures var r := Fail("");
      && !OutcomeOf(call, r).completed
      && OutcomeFromRecord(call, Record(groupId, runId, Failed, Some(Object(ToDict(r))), None, None)).completed
  {
  }

  // ---------- The store ----------

  function Given<T>(given: Option<T>, kept: Option<T>): Option<T> {
    if given.Some? then given else kept
  }

  /** A status update on a record that may already be final; what is not given stays. */
  function Updated(record: Record, status: Status, result: Option<Json>, prompt: Option<string> := None,
                   waitRequest: Option<Json> := None): Record {
    if Terminal(record) then record
    else
      record.(status := status, result := Given(result, record.result), prompt := Given(prompt, record.prompt),
              waitRequest := Given(waitRequest, record.waitRequest))
  }

  function FinishedWaiting(record: Record, status: Status, result: Json): Record {
    if record.status.Waiting? then record.(status := status, result := Some(result)) else record
  }

  class ToolCallStore {
    var records: map<string, Record>

    constructor ()
      ensures records == map[]
    {
      records := map[];
    }

    method Save(call: string, record: Record)
      modifies this
      ensures records == old(records)[call := record]
    {
      records := records[call := record];
    }

    /** Refused once the record is final. */
    method UpdateStatus(call: string, status: Status, result: Option<Json>, prompt: Option<string> := None,
                        waitRequest: Option<Json> := None) returns (updated: bool)
      requires call in records
      modifies this
      ensures updated == !Terminal(old(records)[call])
      ensures records == old(records)[call := Updated(old(records)[call], status, result, prompt, waitRequest)]
    {
      var record := records[call];
      if record.status in {Completed, Blocked, Failed} {
        assert records[call := record] == records;
        return false;
      }
      record := record.(status := status);
      if result.Some? {
        record := record.(result := result);
      }
      if prompt.Some? {
        record := record.(prompt := prompt);
      }
      if waitRequest.Some? {
        record := record.(waitRequest := waitRequest);
      }
      records := records[call := record];
      updated := true;
    }

    /** Refused unless the record still waits. */
    method FinishWaiting(call: string, status: Status, result: Json) returns (updated: bool)
      requires call in records
      modifies this
      ensures updated == old(records)[call].status.Waiting?
      ensures records == old(records)[call := FinishedWaiting(old(records)[call], status, result)]
    {
      var record := records[call];
      if record.status != Waiting {
        assert records[call := record] == records;
        return false;
      }
      records := records[call := record.(status := status, result := Some(result))];
      updated := true;
    }
  }

  // ---------- Transcripts of calls and results ----------

  /** The rows that matter here: an assistant message's calls, and a call's result. */
  datatype Entry = Said(calls: seq<string>) | Answered(call: string, result: Json)

  predicate HasResult(transcript: seq<Entry>, call: string) {
    exists k :: 0 <= k < |transcript| && transcript[k].Answered? && transcript[k].call == call
  }

  /** A second result for a call is not stored. */
  function WithResult(transcript: seq<Entry>, call: string, result: Json): seq<Entry> {
    if HasResult(transcript, call) then transcript else transcript + [Answered(call, result)]
  }

  predicate CalledIn(transcript: seq<Entry>, call: string) {
    exists k :: 0 <= k < |transcript| && transcript[k].Said? && call in transcript[k].calls
  }

  // ---------- Cancellation ----------

  const CANCELLED_RESULT := Object(map["status" := Text("cancelled"), "reason" := Text("session_cancelled")])

  function Close(record: Record): Record {
    Updated(record, Completed, Some(CANCELLED_RESULT))
  }

  function CloseAll(records: map<string, Record>): map<string, Record> {
    map call | call in records :: Close(records[call])
  }

  /** Calls a cancelled transcript answers: those without a result, when they are recorded. */
  predicate Unanswered(records: map<string, Record>, transcript: seq<Entry>, call: string) {
    CalledIn(transcript, call) && !HasResult(transcript, call) && call in records
  }

  function StoredResult(record: Record, otherwise: Json): Json {
    if record.result.Some? && record.result.value.Object? then record.result.value else otherwise
  }

  /** Answer `calls` one after the other, with `otherwise` for a record that has no result. */
  function AnswerEach(records: map<string, Record>, transcript: seq<Entry>, calls: seq<string>,
        otherwise: Json): seq<Entry>
    requires forall call :: call in calls ==> call in records
  {
    if calls == [] then transcript
    else
      var last := |calls| - 1;
      WithResult(AnswerEach(records, transcript, calls[..last], otherwise), calls[last],
          StoredResult(records[calls[last]], otherwise))
  }

  /** `calls` lists the unanswered calls, each once. */
  ghost predicate ListsUnanswered(records: map<string, Record>, transcript: seq<Entry>, calls: seq<string>) {
    && (forall call :: call in calls <==> Unanswered(records, transcript, call))
    && (forall j, k :: 0 <= j < k < |calls| ==> calls[j] != calls[k])
  }

  /** What is left of a cancelled thread: every record closed, every recorded call answered. */
  ghost predicate Cancelled(records: map<string, Record>, transcript: seq<Entry>) {
    && (forall call :: call in records ==> Terminal(records[call]))
    && (forall call :: !Unanswered(records, transcript, call))
  }

  lemma {:induction false} AnswerEachAnswers(records: map<string, Record>, transcript: seq<Entry>, calls: seq<string>,
        otherwise: Json)
    requires forall call :: call in calls ==> call in records
    ensures transcript <= AnswerEach(records, transcript, calls, otherwise)
    ensures forall call ::
              HasResult(AnswerEach(records, transcript, calls, otherwise), call)
              <==> HasResult(transcript, call) || call in calls
    ensures forall call ::
              CalledIn(AnswerEach(records, transcript, calls, otherwise), call) <==> CalledIn(transcript, call)
  {
    if calls != [] {
      var last := |calls| - 1;
      AnswerEachAnswers(records, transcript, calls[..last], otherwise);
      var before := AnswerEach(records, transcript, calls[..last], otherwise);
      var after := AnswerEach(records, transcript, calls, otherwise);
      assert calls == calls[..last] + [calls[last]];
      assert forall k :: 0 <= k < |before| ==> after[k] == before[k];
      forall call ensures HasResult(after, call) <==> HasResult(before, call) || call == calls[last]
        ensures CalledIn(after, call) <==> CalledIn(before, call)
      {
        WithResultHas(before, calls[last], StoredResult(records[calls[last]], otherwise), call);
      }
    }
  }

  lemma WithResultHas(transcript: seq<Entry>, call: string, result: Json, other: string)
    ensures var after := WithResult(transcript, call, result);
      && transcript <= after
      && (HasResult(after, other) <==> HasResult(transcript, other) || other == call)
      && (CalledIn(after, other) <==> CalledIn(transcript, other))
  {
    var after := WithResult(transcript, call, result);
    if !HasResult(transcript, call) {
      assert after[|transcript|] == Answered(call, result);
      if HasResult(transcript, other) {
        var k :| 0 <= k < |transcript| && transcript[k].Answered? && transcript[k].call == other;
        assert after[k] == transcript[k];
      }
      if CalledIn(transcript, other) {
        var k :| 0 <= k < |transcript| && transcript[k].Said? && other in transcript[k].calls;
        assert after[k] == transcript[k];
      }
    }
  }

  /** Cancelling closes and answers everything, in whatever order the missing results land. */
  lemma CancellingCancels(records: map<string, Record>, transcript: seq<Entry>, calls: seq<string>)
    requires ListsUnanswered(CloseAll(records), transcript, calls)
    ensures Cancelled(CloseAll(records), AnswerEach(CloseAll(records), transcript, calls, CANCELLED_RESULT))
  {
    AnswerEachAnswers(CloseAll(records), transcript, calls, CANCELLED_RESULT);
  }

  /** A cancelled thread cancelled again is the same thread. */
  lemma CancellingAgainChangesNothing(records: map<string, Record>, transcript: seq<Entry>, calls: seq<string>)
    requires Cancelled(records, transcript)
    requires ListsUnanswered(CloseAll(records), transcript, calls)
    ensures CloseAll(records) == records
        && AnswerEach(CloseAll(records), transcript, calls, CANCELLED_RESULT) == transcript
  {
    assert CloseAll(records) == records;
    EmptyWithoutMembers(calls);
  }

  lemma EmptyWithoutMembers(calls: seq<string>)
    ensures (forall call :: call !in calls) ==> calls == []
  {
    if calls != [] {
      assert calls[0] in calls;
    }
  }

  /** The calls of an assistant message, and the ids of results, as sets. */
  function CallSet(transcript: seq<Entry>): set<string> {
    set k, c | 0 <= k < |transcript| && transcript[k].Said? && c in transcript[k].calls :: c
  }

  function AnsweredSet(transcript: seq<Entry>): set<string> {
    set k | 0 <= k < |transcript| && transcript[k].Answered? :: transcript[k].call
  }

  /** Close every open call. */
  method CloseOpen(store: ToolCallStore)
    modifies store
    ensures store.records == CloseAll(old(store.records))
  {
    ghost var before := store.records;
    var open := set call | call in store.records && !Terminal(store.records[call]);
    while open != {}
      invariant store.records.Keys == before.Keys
      invariant forall call :: call in before ==> store.records[call] == if call in open then before[call]
          else Close(before[call])
      invariant open <= before.Keys
      decreases |open|
    {
      var call :| call in open;
      var _ := store.UpdateStatus(call, Completed, Some(CANCELLED_RESULT));
      open := open - {call};
    }
  }

  /** One more call answered. */
  lemma AnswerOneMore(records: map<string, Record>, transcript: seq<Entry>, calls: seq<string>, call: string,
        otherwise: Json)
    requires (forall c :: c in calls ==> c in records) && call in records
    ensures AnswerEach(records, transcript, calls + [call], otherwise)
            == WithResult(AnswerEach(records, transcript, calls, otherwise), call,
                StoredResult(records[call], otherwise))
  {
    assert (calls + [call])[..|calls|] == calls;
  }

  lemma MissingAreUnanswered(records: map<string, Record>, transcript: seq<Entry>)
    ensures forall call :: Unanswered(records, transcript, call)
                           <==> call in CallSet(transcript) - AnsweredSet(transcript) && call in records
  {
  }

  /** Answer every recorded call the transcript leaves unanswered. */
  method AnswerMissing(records: map<string, Record>, transcript: seq<Entry>)
    returns (after: seq<Entry>, ghost calls: seq<string>)
    ensures ListsUnanswered(records, transcript, calls)
    ensures after == AnswerEach(records, transcript, calls, CANCELLED_RESULT)
    ensures forall call ::
              HasResult(after, call) <==> HasResult(transcript, call) || Unanswered(records, transcript, call)
  {
    hide Unanswered, HasResult, CalledIn, WithResult, StoredResult, CallSet, AnsweredSet;
    var missing := CallSet(transcript) - AnsweredSet(transcript);
    ghost var unanswered := set call | call in missing && call in records;
    MissingAreUnanswered(records, transcript);
    calls, after := [], transcript;
    while missing != {}
      invariant forall call :: call in calls ==> call in records && call !in missing
      invariant forall j, k :: 0 <= j < k < |calls| ==> calls[j] != calls[k]
      invariant forall call :: call in unanswered <==> call in calls || (call in missing && call in records)
      invariant after == AnswerEach(records, transcript, calls, CANCELLED_RESULT)
      decreases |missing|
    {
      var call :| call in missing;
      missing := missing - {call};
      if call in records {
        AnswerOneMore(records, transcript, calls, call, CANCELLED_RESULT);
        calls := calls + [call];
        after := WithResult(after, call, StoredResult(records[call], CANCELLED_RESULT));
      }
    }
    AnswerEachAnswers(records, transcript, calls, CANCELLED_RESULT);
  }

  /** `record_cancelled` on one thread: close what is open, then answer what is missing. */
  method RecordCancelled(store: ToolCallStore, transcript: seq<Entry>)
    returns (after: seq<Entry>, ghost calls: seq<string>)
    modifies store
    ensures store.records == CloseAll(old(store.records))
    ensures ListsUnanswered(store.records, transcript, calls)
    ensures after == AnswerEach(store.records, transcript, calls, CANCELLED_RESULT)
    ensures Cancelled(store.records, after)
  {
    CloseOpen(store);
    after, calls := AnswerMissing(store.records, transcript);
    CancellingCancels(old(store.records), transcript, calls);
  }

  // ---------- Finalizing ----------

  const NO_RESULT := Object(map["error" := Text("No result")])

  /** What closing a run writes over a call that was still open. */
  function RunClosed(cancelled: bool, reason: string): Json {
    if cancelled then CANCELLED_RESULT
    else Object(map["error" := Text("run failed; tool outcome uncertain: " + reason)])
  }

  function CloseInRun(record: Record, cancelled: bool, reason: string): Record {
    Updated(record, if cancelled then Completed else Failed, Some(RunClosed(cancelled, reason)))
  }

  /** A call closed with its run reads as a success when the run was cancelled, as a failure when
      it failed, and never as a terminal result; one that was final keeps its own report. */
  lemma ClosedCallReports(call: string, record: Record, cancelled: bool, reason: string)
    ensures var closed := CloseInRun(record, cancelled, reason);
      && Terminal(closed)
      && OutcomeFromRecord(call, closed) == if Terminal(record) then OutcomeFromRecord(call, record)
          else Outcome(call, cancelled, false)
  {
  }

  /** `calls` lists the members of `chosen`, each once. */
  ghost predicate Lists(calls: seq<string>, chosen: set<string>) {
    && (forall call :: call in calls <==> call in chosen)
    && (forall j, k :: 0 <= j < k < |calls| ==> calls[j] != calls[k])
  }

  function OfGroup(records: map<string, Record>, groupId: string): set<string> {
    set call | call in records && records[call].groupId == groupId
  }

  function OfRun(records: map<string, Record>, runId: string): set<string> {
    set call | call in records && records[call].runId == runId
  }

  /** One result for every member of a group, in some order. */
  method FinalizeToolGroup(store: ToolCallStore, transcript: seq<Entry>, groupId: string)
    returns (after: seq<Entry>, ghost calls: seq<string>)
    ensures Lists(calls, OfGroup(store.records, groupId))
    ensures after == AnswerEach(store.records, transcript, calls, NO_RESULT)
    ensures forall call ::
              HasResult(after, call) <==> HasResult(transcript, call) || call in OfGroup(store.records, groupId)
  {
    var left := OfGroup(store.records, groupId);
    calls, after := [], transcript;
    while left != {}
      invariant forall call :: call in calls ==> call in store.records && call !in left
      invariant forall call :: call in OfGroup(store.records, groupId) <==> call in calls || call in left
      invariant forall j, k :: 0 <= j < k < |calls| ==> calls[j] != calls[k]
      invariant after == AnswerEach(store.records, transcript, calls, NO_RESULT)
      decreases |left|
    {
      var call :| call in left;
      AnswerOneMore(store.records, transcript, calls, call, NO_RESULT);
      calls := calls + [call];
      left := left - {call};
      after := WithResult(after, call, StoredResult(store.records[call], NO_RESULT));
    }
    AnswerEachAnswers(store.records, transcript, calls, NO_RESULT);
  }

  /** An answer to one of `calls`, with its record's own result. */
  ghost predicate AnswersFrom(records: map<string, Record>, calls: set<string>, entry: Entry) {
    && entry.Answered? && entry.call in calls && entry.call in records
    && entry.result == if records[entry.call].result.Some? then records[entry.call].result.value else NO_RESULT
  }

  /** Part way through a run: of its calls, all but those `left` are closed and answered. */
  ghost predicate Closing(before: map<string, Record>, records: map<string, Record>, transcript: seq<Entry>,
        after: seq<Entry>,
      run: set<string>, left: set<string>, cancelled: bool, reason: string) {
    && records.Keys == before.Keys && left <= run <= before.Keys
    && (forall call :: call in before ==>
          records[call] == if call in run && call !in left then CloseInRun(before[call], cancelled, reason)
              else before[call])
    && transcript <= after
    && (forall call :: HasResult(after, call) <==> HasResult(transcript, call) || (call in run && call !in left))
    && (forall k :: |transcript| <= k < |after| ==> AnswersFrom(records, run - left, after[k]))
  }

  lemma CloseNext(before: map<string, Record>, records: map<string, Record>, transcript: seq<Entry>, after: seq<Entry>,
      run: set<string>, left: set<string>, cancelled: bool, reason: string, call: string)
    requires Closing(before, records, transcript, after, run, left, cancelled, reason) && call in left
    ensures var records' := records[call := CloseInRun(records[call], cancelled, reason)];
      var result := if records'[call].result.Some? then records'[call].result.value else NO_RESULT;
      Closing(before, records', transcript, WithResult(after, call, result), run, left - {call}, cancelled, reason)
  {
    var records' := records[call := CloseInRun(records[call], cancelled, reason)];
    var result := if records'[call].result.Some? then records'[call].result.value else NO_RESULT;
    var after' := WithResult(after, call, result);
    AnswersOne(after, call, result);
    forall k | |transcript| <= k < |after'| ensures AnswersFrom(records', run - (left - {call}), after'[k]) {
      if k < |after| {
        assert AnswersFrom(records, run - left, after[k]) && after'[k] == after[k];
      }
    }
  }

  /** Close a cancelled or failed run's open calls, and answer every call of it with its record's
      own result. */
  method CloseRun(store: ToolCallStore, transcript: seq<Entry>, runId: string, cancelled: bool, reason: string)
    returns (after: seq<Entry>)
    modifies store
    ensures store.records.Keys == old(store.records).Keys
    ensures forall call :: call in store.records ==>
              store.records[call] == if call in OfRun(old(store.records), runId)
                  then CloseInRun(old(store.records)[call], cancelled, reason)
                                     else old(store.records)[call]
    ensures transcript <= after
    ensures forall call ::
              HasResult(after, call) <==> HasResult(transcript, call) || call in OfRun(old(store.records), runId)
    ensures forall k :: |transcript| <= k < |after| ==>
              AnswersFrom(store.records, OfRun(old(store.records), runId), after[k])
  {
    ghost var before := store.records;
    var left := OfRun(store.records, runId);
    ghost var run := left;
    after := transcript;
    while left != {}
      invariant Closing(before, store.records, transcript, after, run, left, cancelled, reason)
      decreases |left|
    {
      hide Closing, WithResult, Updated, AnswersFrom;
      var call :| call in left;
      InClosing(before, store.records, transcript, after, run, left, cancelled, reason);
      CloseNext(before, store.records, transcript, after, run, left, cancelled, reason, call);
      ghost var records := store.records;
      FinalKept(records, call, cancelled, reason);
      if !Terminal(store.records[call]) {
        var _ := store.UpdateStatus(call, if cancelled then Completed else Failed, Some(RunClosed(cancelled, reason)));
      }
      assert store.records == records[call := CloseInRun(records[call], cancelled, reason)];
      var result := if store.records[call].result.Some? then store.records[call].result.value else NO_RESULT;
      after := WithResult(after, call, result);
      left := left - {call};
    }
    assert run - {} == run;
  }

  lemma InClosing(before: map<string, Record>, records: map<string, Record>, transcript: seq<Entry>, after: seq<Entry>,
      run: set<string>, left: set<string>, cancelled: bool, reason: string)
    requires Closing(before, records, transcript, after, run, left, cancelled, reason)
    ensures left <= records.Keys
  {
  }

  lemma FinalKept(records: map<string, Record>, call: string, cancelled: bool, reason: string)
    requires call in records
    ensures Terminal(records[call]) ==> records == records[call := CloseInRun(records[call], cancelled, reason)]
  {
  }

  lemma AnswersOne(transcript: seq<Entry>, call: string, result: Json)
    ensures transcript <= WithResult(transcript, call, result)
    ensures forall other ::
              HasResult(WithResult(transcript, call, result), other) <==> HasResult(transcript, other) || other == call
  {
    forall other
      ensures HasResult(WithResult(transcript, call, result), other)
        <==> HasResult(transcript, other) || other == call
    {
      WithResultHas(transcript, call, result, other);
    }
  }
}
