/** Over every run, calls and results stay paired in what the model sees, however summaries
    and answers interleave. */
module PairedRuns {
  import opened Messages
  import opened Views
  import opened Transcript
  import opened Pairs
  import opened CompactionRuns

  /** A boundary before every call that still waits for its result. */
  ghost predicate BeforeOpen(rows: seq<Row>, through: MessageId) {
    forall k, call :: 0 <= k < |rows| && Open(rows, k, call) ==> rows[k].id.Some? && rows[k].id.value > through
  }

  ghost predicate WrittenSafe(rows: seq<Row>, written: set<Written>) {
    forall w :: w in written ==> BeforeOpen(rows, w.summary.through)
  }

  /** What a blocking summary carries over starts no later than the calls then open. */
  ghost predicate CarriesOpen(rows: seq<Row>, m: Measured) {
    && m.length <= |rows|
    && forall k, call :: 0 <= k < m.length && Open(rows, k, call) ==>
         m.trigger.carried != [] && rows[k].id.Some? && rows[k].id.value >= m.trigger.carried[0]
  }

  ghost predicate MeasuredSafe(rows: seq<Row>, measured: set<Measured>) {
    forall m :: m in measured ==>
      if m.trigger.through.Some? then m.trigger.through in IdsOf(rows) && BeforeOpen(rows, m.trigger.through.value)
      else CarriesOpen(rows, m)
  }

  ghost predicate Safe(s: State) {
    && Covered(s)
    && Shaped(s.rows)
    && Paired(s.rows)
    && WrittenSafe(s.rows, s.written)
    && MeasuredSafe(s.rows, s.measured)
  }

  // ---------- One more row ----------

  lemma EarlierRows(rows: seq<Row>, row: Row)
    ensures var after := rows + [row];
      forall k, call :: 0 <= k < |rows| ==>
        && Calls(after, k, call) == Calls(rows, k, call)
        && Answers(after, k, call) == Answers(rows, k, call)
  {
    var after := rows + [row];
    assert forall k :: 0 <= k < |rows| ==> after[k] == rows[k];
  }

  /** An open call among the old rows was open before. */
  lemma StillOpen(rows: seq<Row>, row: Row, k: nat, call: string)
    requires k < |rows| && Open(rows + [row], k, call)
    ensures Open(rows, k, call)
  {
    EarlierRows(rows, row);
    forall j | 0 <= j < |rows| ensures !Answers(rows, j, call) {
      assert !Answers(rows + [row], j, call);
    }
  }

  /** A row that makes no calls. */
  lemma SafeBoundaries(rows: seq<Row>, row: Row, written: set<Written>, measured: set<Measured>)
    requires WrittenSafe(rows, written) && MeasuredSafe(rows, measured)
    requires row.message.toolCalls == []
    ensures WrittenSafe(rows + [row], written) && MeasuredSafe(rows + [row], measured)
  {
    var after := rows + [row];
    forall k, call | 0 <= k < |after| && Open(after, k, call)
      ensures k < |rows| && after[k] == rows[k] && Open(rows, k, call)
    {
      if k < |rows| {
        StillOpen(rows, row, k, call);
      }
    }
    forall m | m in measured && m.trigger.through.Some? ensures m.trigger.through in IdsOf(after) {
      IdStays(rows, row, m.trigger.through.value);
    }
  }

  lemma ShapedQuiet(rows: seq<Row>, row: Row)
    requires Shaped(rows)
    requires row.message.toolCalls == [] && !row.message.role.Assistant? && !row.message.role.Tool?
    ensures Shaped(rows + [row])
  {
    var after := rows + [row];
    EarlierRows(rows, row);
    forall j, k, call | 0 <= k < j < |after| && Open(after, k, call) ensures !after[j].message.role.Assistant? {
      StillOpen(rows, row, k, call);
    }
    forall j, call | 0 <= j < |after| && Answers(after, j, call)
      ensures exists k :: 0 <= k < j && Calls(after, k, call)
    {
      var k :| 0 <= k < j && Calls(rows, k, call);
      assert Calls(after, k, call);
    }
  }

  /** Visibility of old rows does not change when a message is appended. */
  lemma ShowsAfterAppend(rows: seq<Row>, row: Row)
    requires Stored(rows + [row]) && row.message.kind.Conversation?
    ensures var after := rows + [row];
      && LastCompaction(after) == LastCompaction(rows)
      && Shows(after, |rows|)
      && forall k :: 0 <= k < |rows| ==> Shows(after, k) == Shows(rows, k)
  {
    var after := rows + [row];
    VisibleAfterAppend(rows, row);
    assert after[..|rows|] == rows;
    forall k | 0 <= k < |rows| ensures Shows(after, k) == Shows(rows, k) {
      assert after[k] == rows[k];
    }
  }

  lemma PairedQuiet(rows: seq<Row>, row: Row)
    requires Stored(rows + [row]) && row.message.kind.Conversation? && Paired(rows)
    requires row.message.toolCalls == [] && !row.message.role.Tool?
    ensures Paired(rows + [row])
  {
    var after := rows + [row];
    EarlierRows(rows, row);
    ShowsAfterAppend(rows, row);
    forall k, call | 0 <= k < |after| && Open(after, k, call) ensures Shows(after, k) {
      StillOpen(rows, row, k, call);
    }
  }

  lemma SafeInbound(s: State, message: Message)
    requires Safe(s) && message.kind.Conversation? && message.toolCalls == [] && message.role.User?
    ensures Safe(Appended(s, message))
  {
    hide Covered, Shaped, Paired, WrittenSafe, MeasuredSafe;
    var row := Row(Some(s.counter + 1), message);
    CoveredAppend(s, message);
    RowsNumbered(Appended(s, message));
    ShapedQuiet(s.rows, row);
    PairedQuiet(s.rows, row);
    SafeBoundaries(s.rows, row, s.written, s.measured);
  }

  // ---------- An answer ----------

  lemma ShapedAnswer(rows: seq<Row>, row: Row)
    requires Shaped(rows)
    requires row.message.role.Assistant? && row.message.kind.Conversation? && row.message.tag.None?
    requires forall call :: call in CallIds(row.message) ==> !Called(rows, call)
    requires forall k, call :: 0 <= k < |rows| ==> !Open(rows, k, call)
    ensures Shaped(rows + [row])
    ensures forall k, call :: 0 <= k < |rows| ==> !Open(rows + [row], k, call)
    ensures forall j, call :: 0 <= j <= |rows| && Answers(rows + [row], j, call) ==> !Calls(rows + [row], |rows|, call)
  {
    var after := rows + [row];
    EarlierRows(rows, row);
    forall k, call | 0 <= k < |rows| ensures !Open(after, k, call) {
      if Open(after, k, call) {
        StillOpen(rows, row, k, call);
      }
    }
    forall j, call | 0 <= j < |after| && Answers(after, j, call)
      ensures exists k :: 0 <= k < j && Calls(after, k, call)
      ensures !Calls(after, |rows|, call)
    {
      assert Answers(rows, j, call);
      var k :| 0 <= k < j && Calls(rows, k, call);
      assert Calls(after, k, call) && Called(rows, call);
    }
    forall k, call | 0 <= k < |rows| && call in CallIds(row.message) ensures !Calls(rows, k, call) {
    }
  }

  lemma PairedAnswer(rows: seq<Row>, row: Row)
    requires Stored(rows + [row]) && row.message.kind.Conversation? && row.message.role.Assistant? && Paired(rows)
    requires forall k, call :: 0 <= k < |rows| ==> !Open(rows + [row], k, call)
    requires forall j, call :: 0 <= j <= |rows| && Answers(rows + [row], j, call) ==> !Calls(rows + [row], |rows|, call)
    ensures Paired(rows + [row])
  {
    EarlierRows(rows, row);
    ShowsAfterAppend(rows, row);
  }

  /** Every boundary stands before the one message whose calls are open. */
  lemma AnswerBoundaries(rows: seq<Row>, counter: nat, row: Row, written: set<Written>, measured: set<Measured>)
    requires Numbered(rows, counter) && row.id == Some(counter + 1)
    requires AllReady(rows, counter, written) && MeasuredSafe(rows, measured)
    requires forall k, call :: 0 <= k < |rows| ==> !Open(rows + [row], k, call)
    ensures WrittenSafe(rows + [row], written) && MeasuredSafe(rows + [row], measured)
  {
    hide Stored;
    var after := rows + [row];
    forall w | w in written ensures BeforeOpen(after, w.summary.through) {
      IdBound(rows, counter, w.summary.through);
    }
    forall m | m in measured && m.trigger.through.Some?
      ensures m.trigger.through in IdsOf(after) && BeforeOpen(after, m.trigger.through.value)
    {
      IdBound(rows, counter, m.trigger.through.value);
      IdStays(rows, row, m.trigger.through.value);
    }
  }

  lemma SafeAnswer(s: State, message: Message)
    requires Safe(s) && message.role.Assistant? && message.kind.Conversation? && message.tag.None?
    requires forall call :: call in CallIds(message) ==> !Called(s.rows, call)
    requires forall k, call :: 0 <= k < |s.rows| ==> !Open(s.rows, k, call)
    ensures Safe(Appended(s, message))
  {
    hide Shaped, Paired, WrittenSafe, MeasuredSafe, Numbered, Linked, AllReady, NoneFirst, SeenOrSummarized;
    var row := Row(Some(s.counter + 1), message);
    CoveredAppend(s, message);
    RowsNumbered(Appended(s, message));
    ShapedAnswer(s.rows, row);
    PairedAnswer(s.rows, row);
    AnswerBoundaries(s.rows, s.counter, row, s.written, s.measured);
  }

  // ---------- A result ----------

  lemma CalledIsOpen(rows: seq<Row>, call: string) returns (k: nat)
    requires Called(rows, call) && !Answered(rows, call)
    ensures k < |rows| && Open(rows, k, call)
  {
    k :| 0 <= k < |rows| && rows[k].message.role.Assistant? && call in CallIds(rows[k].message);
  }

  lemma ShapedResult(rows: seq<Row>, row: Row, k: nat, call: string)
    requires Shaped(rows)
    requires row.message.role.Tool? && row.message.kind.Conversation? && row.message.toolCalls == []
    requires row.message.toolCallId == Some(call) && k < |rows| && Calls(rows, k, call)
    ensures Shaped(rows + [row])
  {
    var after := rows + [row];
    EarlierRows(rows, row);
    forall j, k, c | 0 <= k < j < |after| && Open(after, k, c) ensures !after[j].message.role.Assistant? {
      StillOpen(rows, row, k, c);
    }
    forall j, c | 0 <= j < |after| && Answers(after, j, c) ensures exists i :: 0 <= i < j && Calls(after, i, c) {
      if j < |rows| {
        var i :| 0 <= i < j && Calls(rows, i, c);
        assert Calls(after, i, c);
      } else {
        assert Calls(after, k, call);
      }
    }
  }

  /** A result is stored while its call is still shown, so it is shown with it. */
  lemma PairedResult(rows: seq<Row>, row: Row, k: nat, call: string)
    requires Stored(rows + [row]) && Shaped(rows) && Paired(rows)
    requires row.message.role.Tool? && row.message.kind.Conversation? && row.message.toolCalls == []
    requires row.message.toolCallId == Some(call) && k < |rows| && Open(rows, k, call)
    ensures Paired(rows + [row])
  {
    var after := rows + [row];
    EarlierRows(rows, row);
    ShowsAfterAppend(rows, row);
    forall i, c | 0 <= i < |after| && Open(after, i, c) ensures Shows(after, i) {
      StillOpen(rows, row, i, c);
    }
    forall j, i, c | 0 <= j < |after| && 0 <= i < |after| && Calls(after, i, c) && Answers(after, j, c)
        && Shows(after, i)
      ensures Shows(after, j)
    {
      assert Calls(rows, i, c) && (j < |rows| ==> Answers(rows, j, c) && Shows(rows, j));
    }
    forall j, i, c | LastCompaction(after) < j < |after| && 0 <= i < |after| && Calls(after, i, c)
        && Answers(after, j, c)
      ensures Shows(after, i)
    {
      assert Calls(rows, i, c);
      if j == |rows| {
        assert i == k && Shows(rows, k);
      } else {
        assert Answers(rows, j, c) && Shows(rows, i);
      }
    }
  }

  lemma SafeResult(s: State, call: string, name: string, result: Content)
    requires Safe(s) && Called(s.rows, call) && !Answered(s.rows, call)
    ensures Safe(Appended(s, ToolMessage(call, name, result)))
  {
    hide Covered, Shaped, Paired, WrittenSafe, MeasuredSafe;
    var message := ToolMessage(call, name, result);
    var row := Row(Some(s.counter + 1), message);
    CoveredAppend(s, message);
    RowsNumbered(Appended(s, message));
    var k := CalledIsOpen(s.rows, call);
    ShapedResult(s.rows, row, k, call);
    PairedResult(s.rows, row, k, call);
    SafeBoundaries(s.rows, row, s.written, s.measured);
  }

  // ---------- Measuring and writing ----------

  /** An open call is carried over, first. */
  lemma OpenIsCarried(rows: seq<Row>, k: nat, call: string)
    requires Stored(rows) && Shaped(rows) && Paired(rows)
    requires k < |rows| && Open(rows, k, call)
    ensures var view := ModelView(rows);
      var start := PendingStart(view.messages, Floor(view));
      && start < |view.ids| && view.ids[start] == rows[k].id
      && (start > 0 && view.ids[start - 1].Some? ==> view.ids[start - 1].value < rows[k].id.value)
      && (start > 0 ==> |Values(view.ids[start..])| > 0 && Values(view.ids[start..])[0] == rows[k].id.value)
  {
    var view := ModelView(rows);
    var start := PendingStart(view.messages, Floor(view));
    OpenStartsPending(rows, k, call);
    ListForModelStored(rows);
    ViewIds(ListForModel(rows));
    assert view.ids[start..][0] == view.ids[start];
  }

  /** The measured boundary falls before every open call, and what is carried over starts at it. */
  lemma TriggerIsSafe(rows: seq<Row>, ahead: bool, reason: string, tokens: int, images: int)
    requires Stored(rows) && Shaped(rows) && Paired(rows)
    requires TriggerFor(rows, ahead, reason, tokens, images).Some?
    ensures var trigger := TriggerFor(rows, ahead, reason, tokens, images).value;
      if trigger.through.Some? then trigger.through in IdsOf(rows) && BeforeOpen(rows, trigger.through.value)
      else CarriesOpen(rows, Measured(trigger, |rows|))
  {
    hide Shaped, Paired, ModelView, PendingStart, Values;
    CutInput(rows, PendingStart(ModelView(rows).messages, Floor(ModelView(rows))));
    forall k, call | 0 <= k < |rows| && Open(rows, k, call)
      ensures var trigger := TriggerFor(rows, ahead, reason, tokens, images).value;
        if trigger.through.Some? then trigger.through.value < rows[k].id.value
        else trigger.carried != [] && trigger.carried[0] == rows[k].id.value
    {
      OpenIsCarried(rows, k, call);
    }
  }

  lemma SafeMeasure(s: State, ahead: bool, reason: string, tokens: int, images: int)
    requires Safe(s)
    ensures Safe(Next(s, Measure(ahead, reason, tokens, images)))
  {
    hide Covered, Shaped, Paired, WrittenSafe, Stored;
    RowsNumbered(s);
    CoveredMeasure(s, ahead, reason, tokens, images);
    var trigger := TriggerFor(s.rows, ahead, reason, tokens, images);
    if trigger.Some? {
      TriggerIsSafe(s.rows, ahead, reason, tokens, images);
    }
  }

  /** Where a cut falls. */
  lemma CutFalls(view: View, trigger: Trigger)
    requires Cut(view, trigger).Ok? && |view.ids| == |view.messages|
    ensures var cut := Cut(view, trigger).value;
      && cut <= |view.ids|
      && (trigger.through.Some? ==> cut >= 1 && view.ids[cut - 1] == trigger.through)
      && (trigger.through.None? && trigger.carried != []
          ==> cut < |view.ids| && view.ids[cut] == Some(trigger.carried[0]))
  {
  }

  lemma ModelIdsRise(rows: seq<Row>)
    requires Stored(rows)
    ensures Rising(ModelView(rows).ids) && |ModelView(rows).ids| == |ModelView(rows).messages|
  {
    ListForModelStored(rows);
    ViewIds(ListForModel(rows));
  }

  /** Open calls were open when a blocking summary's turn was measured, and are carried over. */
  lemma OpenIsNotCut(rows: seq<Row>, m: Measured, ids: seq<Option<MessageId>>, cut: nat)
    requires Shaped(rows) && CarriesOpen(rows, m) && Rising(ids)
    requires forall k :: m.length <= k < |rows| ==> rows[k].message.kind.Compaction?
    requires m.trigger.carried != [] ==> 1 <= cut < |ids| && ids[cut] == Some(m.trigger.carried[0])
    requires 1 <= cut <= |ids| && ids[cut - 1].Some?
    ensures BeforeOpen(rows, ids[cut - 1].value)
  {
    forall k, call | 0 <= k < |rows| && Open(rows, k, call)
      ensures rows[k].id.Some?
        && rows[k].id.value > ids[cut - 1].value
    {
      assert k < m.length;
      assert ids[cut - 1].value < ids[cut].value;
    }
  }

  /** A summary is written up to a boundary before every open call. */
  lemma WriteIsSafe(rows: seq<Row>, m: Measured, text: string)
    requires Stored(rows) && FirstNotCarried(rows, m) && Shaped(rows) && MeasuredSafe(rows, {m})
    requires m.trigger.through.None? ==> forall k :: m.length <= k < |rows| ==> rows[k].message.kind.Compaction?
    requires Summarize(rows, m.trigger, text).Ok?
    ensures BeforeOpen(rows, Summarize(rows, m.trigger, text).value.0.through)
  {
    hide Shaped, BeforeOpen, Stored, Cut, ModelView, Rising, CarriesOpen;
    var view := ModelView(rows);
    assert m in {m};
    ModelIdsRise(rows);
    CutFalls(view, m.trigger);
    CutIsPositive(rows, m.trigger);
    if m.trigger.through.None? {
      OpenIsNotCut(rows, m, view.ids, Cut(view, m.trigger).value);
    }
  }

  lemma SafeWrite(s: State, m: Measured, text: string)
    requires Safe(s) && Allowed(s, Write(m, text))
    ensures Safe(Next(s, Write(m, text)))
  {
    CoveredWrite(s, m, text);
    if Summarize(s.rows, m.trigger, text).Ok? {
      WriteIsSafe(s.rows, m, text);
    }
  }

  // ---------- Storing ----------

  lemma ShapedStore(rows: seq<Row>, row: Row)
    requires Shaped(rows) && row.message.kind.Compaction? && row.message.role.User? && row.message.toolCalls == []
    ensures Shaped(rows + [row])
  {
    ShapedQuiet(rows, row);
  }

  /** What an old row's visibility becomes when a summary is stored. */
  lemma ShowsAfterStore(rows: seq<Row>, id: MessageId, w: Written, settings: Settings, images: seq<Message> -> int)
    requires Stored(rows)
    requires StoredAs(rows, w.summary, settings, images).Block?
    requires forall k :: 0 <= k < |rows| ==> rows[k].id.value < id
    ensures var after := WithSummary(rows, id, StoredAs(rows, w.summary, settings, images).block);
      && LastCompaction(after) == |rows|
      && (forall k :: 0 <= k < |rows| && Shows(rows, k) && rows[k].id.value > w.summary.through ==> Shows(after, k))
      && (forall k :: 0 <= k < |rows| && Shows(after, k) && rows[k].message.tag.None? ==>
            Shows(rows, k) && rows[k].id.value > w.summary.through)
  {
    hide KeptIds;
    var after := WithSummary(rows, id, StoredAs(rows, w.summary, settings, images).block);
    VisibleAfterStore(rows, id, w.summary, settings, images);
    forall k | 0 <= k < |rows| ensures after[k] == rows[k]
      ensures rows[k].id.value in KeptIds(rows[..Before(rows, w.summary.through)], settings.keep)
          ==> rows[k].message.tag.Some?
    {
      KeptIsTagged(rows, Before(rows, w.summary.through), settings.keep, k);
    }
  }

  lemma KeptIsTagged(rows: seq<Row>, before: nat, keep: seq<string>, k: nat)
    requires Stored(rows) && before <= |rows| && k < |rows|
    ensures rows[k].id.value in KeptIds(rows[..before], keep) ==> rows[k].message.tag.Some?
  {
    hide KeptIds;
    KeptAreStored(rows[..before], keep);
    if rows[k].id.value in KeptIds(rows[..before], keep) {
      var j :| 0 <= j < before && rows[..before][j].id == Some(rows[k].id.value) && rows[..before][j].message.tag.Some?;
      assert rows[j] == rows[..before][j] && j == k;
    }
  }

  lemma PairedStore(rows: seq<Row>, id: MessageId, w: Written, settings: Settings, images: seq<Message> -> int)
    requires Stored(rows) && Shaped(rows) && Paired(rows) && BeforeOpen(rows, w.summary.through)
    requires StoredAs(rows, w.summary, settings, images).Block?
    requires forall k :: 0 <= k < |rows| ==> rows[k].id.value < id
    ensures Paired(WithSummary(rows, id, StoredAs(rows, w.summary, settings, images).block))
  {
    hide StoredAs, Shows, LastCompaction;
    var row := Row(Some(id), CompactionMessage(StoredAs(rows, w.summary, settings, images).block));
    var after := rows + [row];
    EarlierRows(rows, row);
    ShowsAfterStore(rows, id, w, settings, images);
    forall k, call | 0 <= k < |after| && Open(after, k, call) ensures Shows(after, k) {
      StillOpen(rows, row, k, call);
    }
    forall j, k, call | 0 <= j < |after| && 0 <= k < |after| && Calls(after, k, call) && Answers(after, j, call)
        && Shows(after, k)
      ensures Shows(after, j)
    {
      assert Calls(rows, k, call) && Answers(rows, j, call) && Shows(rows, k) && Shows(rows, j);
      var i :| 0 <= i < j && Calls(rows, i, call);
      assert i == k;
    }
  }

  lemma StoreKeepsPairs(rows: seq<Row>, id: MessageId, w: Written, settings: Settings, images: seq<Message> -> int,
                        written: set<Written>, measured: set<Measured>)
    requires Stored(rows) && Shaped(rows) && Paired(rows) && BeforeOpen(rows, w.summary.through)
    requires WrittenSafe(rows, written) && MeasuredSafe(rows, measured)
    requires StoredAs(rows, w.summary, settings, images).Block?
    requires forall k :: 0 <= k < |rows| ==> rows[k].id.value < id
    ensures var after := WithSummary(rows, id, StoredAs(rows, w.summary, settings, images).block);
      Shaped(after) && Paired(after) && WrittenSafe(after, written) && MeasuredSafe(after, measured)
  {
    hide Shaped, Paired, WrittenSafe, MeasuredSafe;
    var row := Row(Some(id), CompactionMessage(StoredAs(rows, w.summary, settings, images).block));
    ShapedStore(rows, row);
    PairedStore(rows, id, w, settings, images);
    SafeBoundaries(rows, row, written, measured);
  }

  lemma SafeStore(s: State, w: Written, settings: Settings, images: int)
    requires Safe(s) && w in s.written
    ensures Safe(Next(s, Store(w, settings, images)))
  {
    hide Shaped, Paired, MeasuredSafe, Linked, AllReady, NoneFirst, SeenOrSummarized, StoredAs, BeforeOpen, Stored;
    CoveredStore(s, w, settings, images);
    if StoredAs(s.rows, w.summary, settings, Counted(images)).Block? {
      StoreKeepsPairs(s.rows, s.counter + 1, w, settings, Counted(images), s.written, s.measured);
    }
  }

  // ---------- Every run ----------

  lemma SafeElsewhere(s: State)
    requires Safe(s)
    ensures Safe(Next(s, OtherThread))
  {
  }

  lemma SafeNext(s: State, step: Step)
    requires Safe(s) && Allowed(s, step)
    ensures Safe(Next(s, step))
  {
    hide Shaped, Paired, WrittenSafe, MeasuredSafe, Covered;
    match step
    case OtherThread => SafeElsewhere(s);
    case Inbound(content, tag) => SafeInbound(s, UserMessage(content, tag));
    case Answer(content, calls, usage, unseen) =>
      SafeAnswer(s, AssistantMessage(content, calls, usage, unseen));
    case ToolResult(call, name, result) =>
      if !Answered(s.rows, call) {
        SafeResult(s, call, name, result);
      }
    case Measure(ahead, reason, tokens, images) => SafeMeasure(s, ahead, reason, tokens, images);
    case Write(m, text) => SafeWrite(s, m, text);
    case Store(w, settings, images) => SafeStore(s, w, settings, images);
  }

  lemma {:induction false} EveryRunIsSafe(steps: seq<Step>)
    requires Run(steps)
    ensures Safe(After(steps))
  {
    if steps != [] {
      EveryRunIsSafe(steps[..|steps| - 1]);
      SafeNext(After(steps[..|steps| - 1]), steps[|steps| - 1]);
    }
  }

  /** A tool message follows the assistant message that made its call. */
  ghost predicate ToolsFollowCalls(view: View) {
    forall i :: 0 <= i < |view.messages| && view.messages[i].role.Tool? ==>
      view.messages[i].toolCallId.Some?
      && exists j :: 0 <= j < i && view.messages[j].role.Assistant?
                     && view.messages[i].toolCallId.value in CallIds(view.messages[j])
  }

  /** A shown call has all its stored results after it, as tool messages. */
  ghost predicate CallsShowResults(rows: seq<Row>, view: View) {
    forall i, call, r :: 0 <= i < |view.messages| && call in CallIds(view.messages[i])
                         && 0 <= r < |rows| && Answers(rows, r, call) ==>
      exists j :: i < j < |view.messages| && view.messages[j] == rows[r].message
  }

  /** A shown result whose call is not shown is a user message. */
  ghost predicate OrphansAreUsers(rows: seq<Row>, view: View) {
    forall r, call :: 0 <= r < |rows| && Answers(rows, r, call) && Shows(rows, r)
                      && (forall i :: 0 <= i < |view.messages| ==> call !in CallIds(view.messages[i])) ==>
      exists j :: 0 <= j < |view.messages| && KeptVerbatim(rows[r].message, view.messages[j])
          && view.messages[j].role.User?
  }

  /** Past the summary, a view shows stored rows and nothing else: each its own message, or a kept
      result of a replaced call. */
  ghost predicate OthersAreRows(rows: seq<Row>, view: View) {
    |view.messages| == |view.ids|
    && forall i :: Floor(view) <= i < |view.messages| ==> ShowsRow(rows, view.ids[i], view.messages[i])
  }

  ghost predicate ShowsRow(rows: seq<Row>, id: Option<MessageId>, shown: Message) {
    exists k :: 0 <= k < |rows| && rows[k].id == id && rows[k].message.kind.Conversation?
                && (shown == rows[k].message || (rows[k].message.role.Tool? && KeptVerbatim(rows[k].message, shown)))
  }

  lemma ViewShowsRows(rows: seq<Row>)
    requires Stored(rows)
    ensures OthersAreRows(rows, ModelView(rows))
  {
    hide Stored;
    var view := ModelView(rows);
    ViewIsRendered(ListForModel(rows));
    forall i | Floor(view) <= i < |view.messages|
      ensures ShowsRow(rows, view.ids[i], view.messages[i])
    {
      var k := RowOf(rows, i);
      RetainedIsVerbatim(rows[k].message);
    }
  }

  lemma ViewToolsFollowCalls(rows: seq<Row>)
    requires Stored(rows) && Shaped(rows) && Paired(rows)
    ensures ToolsFollowCalls(ModelView(rows))
  {
    hide Stored, Shaped, Paired;
    var view := ModelView(rows);
    forall i | 0 <= i < |view.messages| && view.messages[i].role.Tool?
      ensures view.messages[i].toolCallId.Some?
      ensures exists j :: 0 <= j < i && view.messages[j].role.Assistant?
                          && view.messages[i].toolCallId.value in CallIds(view.messages[j])
    {
      var j := ToolFollowsCall(rows, i);
    }
  }

  lemma ViewCallsShowResults(rows: seq<Row>)
    requires Stored(rows) && Shaped(rows) && Paired(rows)
    ensures CallsShowResults(rows, ModelView(rows))
  {
    hide Stored, Shaped, Paired;
    var view := ModelView(rows);
    forall i, call, r | 0 <= i < |view.messages| && call in CallIds(view.messages[i]) && 0 <= r < |rows|
        && Answers(rows, r, call)
      ensures exists j :: i < j < |view.messages| && view.messages[j] == rows[r].message
    {
      var j := CallShowsResults(rows, i, call, r);
    }
  }

  lemma ViewOrphansAreUsers(rows: seq<Row>)
    requires Stored(rows) && Shaped(rows) && Paired(rows)
    ensures OrphansAreUsers(rows, ModelView(rows))
  {
    hide Stored, Shaped, Paired;
    var view := ModelView(rows);
    forall r, call | 0 <= r < |rows| && Answers(rows, r, call) && Shows(rows, r)
                     && (forall i :: 0 <= i < |view.messages| ==> call !in CallIds(view.messages[i]))
      ensures exists j :: 0 <= j < |view.messages| && KeptVerbatim(rows[r].message, view.messages[j])
                          && view.messages[j].role.User?
    {
      var j := OrphanIsRetained(rows, r, call);
    }
  }

  /** In every view a run can reach: tool messages follow their calls, shown calls have their
      stored results after them, kept results whose calls were replaced are user messages with their
      content, and nothing but the summary and stored rows is shown. */
  lemma EveryViewIsPaired(steps: seq<Step>)
    requires Run(steps)
    ensures var rows := After(steps).rows;
      var view := ModelView(rows);
      && ToolsFollowCalls(view) && CallsShowResults(rows, view) && OrphansAreUsers(rows, view)
      && OthersAreRows(rows, view)
  {
    hide Stored, Shaped, Paired, ToolsFollowCalls, CallsShowResults, OrphansAreUsers, OthersAreRows;
    EveryRunIsSafe(steps);
    RowsNumbered(After(steps));
    ViewToolsFollowCalls(After(steps).rows);
    ViewCallsShowResults(After(steps).rows);
    ViewOrphansAreUsers(After(steps).rows);
    ViewShowsRows(After(steps).rows);
  }
}
