/** A thread's transcript over every run: messages arrive, turns are answered, summaries are
    measured for, written beside the turns, and stored later or dropped as stale. */
module CompactionRuns {
  import opened Messages
  import opened Views
  import opened Transcript
  import opened Pairs

  /** A measured turn, and how many rows were stored when it was measured. */
  datatype Measured = Measured(trigger: Trigger, length: nat)

  /** A summary, and the messages it was written from. */
  datatype Written = Written(summary: Summary, input: set<MessageId>)

  /** `log` remembers, for each compaction row, the summary it stored. */
  datatype State = State(
    rows: seq<Row>,
    counter: nat,
    measured: set<Measured>,
    written: set<Written>,
    log: map<MessageId, Written>)

  datatype Step =
    | OtherThread
    | Inbound(content: Content, tag: Option<string>)
    | Answer(content: Content, calls: seq<ToolCall>, usage: Option<(nat, nat)>, unseen: nat)
    | ToolResult(call: string, name: string, result: Content)
    | Measure(ahead: bool, reason: string, tokens: int, images: int)
    | Write(measured: Measured, text: string)
    | Store(written: Written, settings: Settings, images: int)

  const Init := State([], 0, {}, {}, map[])

  // ---------- The steps ----------

  function Values(ids: seq<Option<MessageId>>): (r: seq<MessageId>)
    ensures (forall k :: 0 <= k < |ids| ==> ids[k].Some?) ==>
              |r| == |ids| && forall k :: 0 <= k < |ids| ==> r[k] == ids[k].value
  {
    if ids == [] then []
    else (if ids[0].Some? then [ids[0].value] else []) + Values(ids[1..])
  }

  /** What a turn past a limit reports: the boundary of a background summary, or what a
      blocking one carries over. `None` when there is nothing before it to summarize. */
  function TriggerFor(rows: seq<Row>, ahead: bool, reason: string, tokens: int, images: int): Option<Trigger> {
    var view := ModelView(rows);
    var start := PendingStart(view.messages, Floor(view));
    if start <= Floor(view) || |view.ids| < start || view.ids[start - 1].None? then None
    else if ahead then Some(Trigger(reason, tokens, images, view.ids[start - 1], []))
    else Some(Trigger(reason, tokens, images, None, Values(view.ids[start..])))
  }

  function Appended(s: State, message: Message): State {
    s.(rows := s.rows + [Row(Some(s.counter + 1), message)], counter := s.counter + 1)
  }

  predicate Answered(rows: seq<Row>, call: string) {
    exists k :: 0 <= k < |rows| && rows[k].message.role.Tool? && rows[k].message.toolCallId == Some(call)
  }

  predicate Called(rows: seq<Row>, call: string) {
    exists k :: 0 <= k < |rows| && rows[k].message.role.Assistant? && call in CallIds(rows[k].message)
  }

  function AssistantMessage(content: Content, calls: seq<ToolCall>, usage: Option<(nat, nat)>, unseen: nat): Message {
    Message(Assistant, content, calls, None, None, None, Conversation, usage, unseen)
  }

  /** The order the runtime keeps: call ids are new, results answer recorded calls, and every
      result is stored before the next answer; a blocking summary is written before anything
      else is said. */
  ghost predicate Allowed(s: State, step: Step) {
    match step
    case Answer(content, calls, usage, unseen) =>
      && (forall k :: 0 <= k < |calls| ==> !Called(s.rows, calls[k].id))
      && (forall k, call :: 0 <= k < |s.rows| ==> !Open(s.rows, k, call))
    case ToolResult(call, name, result) => Called(s.rows, call)
    case Write(measured, text) =>
      && measured in s.measured
      && (measured.trigger.through.None? ==>
            forall k :: measured.length <= k < |s.rows| ==> s.rows[k].message.kind.Compaction?)
    case Store(written, settings, images) => written in s.written
    case _ => true
  }

  function WithBlock(s: State, written: Written, block: CompactionBlock): State {
    var id := s.counter + 1;
    s.(rows := WithSummary(s.rows, id, block), counter := id, log := s.log[id := written])
  }

  /** What a prepared request is found to carry. */
  function Counted(images: int): seq<Message> -> int {
    _ => images
  }

  function Next(s: State, step: Step): State {
    match step
    case OtherThread => s.(counter := s.counter + 1)
    case Inbound(content, tag) => Appended(s, UserMessage(content, tag))
    case Answer(content, calls, usage, unseen) => Appended(s, AssistantMessage(content, calls, usage, unseen))
    case ToolResult(call, name, result) =>
      if Answered(s.rows, call) then s else Appended(s, ToolMessage(call, name, result))
    case Measure(ahead, reason, tokens, images) =>
      (match TriggerFor(s.rows, ahead, reason, tokens, images)
       case None => s
       case Some(trigger) => s.(measured := s.measured + {Measured(trigger, |s.rows|)}))
    case Write(measured, text) =>
      (match Summarize(s.rows, measured.trigger, text)
       case Err(_) => s
       case Ok((summary, input)) => s.(written := s.written + {Written(summary, input)}))
    case Store(written, settings, images) =>
      (match StoredAs(s.rows, written.summary, settings, Counted(images))
       case Block(block) => WithBlock(s, written, block)
       case _ => s)
  }

  function After(steps: seq<Step>): State {
    if steps == [] then Init else Next(After(steps[..|steps| - 1]), steps[|steps| - 1])
  }

  ghost predicate Run(steps: seq<Step>) {
    steps == [] || (Run(steps[..|steps| - 1]) && Allowed(After(steps[..|steps| - 1]), steps[|steps| - 1]))
  }

  /** Ids come from the store's counter. */
  ghost predicate Numbered(rows: seq<Row>, counter: nat) {
    && Stored(rows)
    && (forall k :: 0 <= k < |rows| ==> rows[k].id.value <= counter)
  }

  // ---------- Every message is seen or summarized ----------

  /** What the chain of summaries ending in row `id` was written from. */
  function Chain(log: map<MessageId, Written>, id: Option<MessageId>): set<MessageId>
    decreases if id.Some? then id.value + 1 else 0
  {
    if id.None? || id.value !in log then {}
    else
      var w := log[id.value];
      w.input + if w.summary.base.None? || w.summary.base.value < id.value then Chain(log, w.summary.base) else {}
  }

  lemma {:induction false} ChainStays(log: map<MessageId, Written>, id: Option<MessageId>, n: MessageId, w: Written)
    requires id.Some? ==> id.value < n
    ensures Chain(log[n := w], id) == Chain(log, id)
    decreases if id.Some? then id.value + 1 else 0
  {
    if id.Some? && id.value in log {
      var base := log[id.value].summary.base;
      if base.Some? && base.value < id.value {
        ChainStays(log, base, n, w);
      }
    }
  }

  /** Each compaction row was stored over the one before it. */
  ghost predicate Linked(rows: seq<Row>, log: map<MessageId, Written>) {
    forall k :: 0 <= k < |rows| ==> LinkedAt(rows, log, k)
  }

  ghost predicate LinkedAt(rows: seq<Row>, log: map<MessageId, Written>, k: nat)
    requires k < |rows|
  {
    rows[k].message.kind.Compaction? ==>
      rows[k].id.Some? && rows[k].id.value in log && log[rows[k].id.value].summary.base == Latest(rows[..k])
  }

  function UpTo(ids: set<MessageId>, through: MessageId): set<MessageId> {
    set id | id in ids && id <= through
  }

  /** A summary still to be stored: its boundary is a stored row and, unless it is stale, it
      was written from everything visible through it. */
  ghost predicate Ready(rows: seq<Row>, counter: nat, w: Written) {
    && Some(w.summary.through) in IdsOf(rows)
    && (w.summary.base.Some? ==> w.summary.base.value <= counter)
    && (w.summary.base == Latest(rows) ==> w.input == UpTo(Visible(rows), w.summary.through))
  }

  ghost predicate AllReady(rows: seq<Row>, counter: nat, written: set<Written>) {
    forall w :: w in written ==> Ready(rows, counter, w)
  }

  /** Each stored message is in the model's view, or was in the input of the chain of
      summaries that ends in the current one. */
  ghost predicate SeenOrSummarized(rows: seq<Row>, log: map<MessageId, Written>) {
    MessageIds(rows) <= Visible(rows) + Chain(log, Latest(rows))
  }

  ghost predicate FirstNotCarried(rows: seq<Row>, m: Measured) {
    m.trigger.carried != [] ==> |rows| > 0 && rows[0].id != Some(m.trigger.carried[0])
  }

  ghost predicate NoneFirst(rows: seq<Row>, measured: set<Measured>) {
    forall m :: m in measured ==> FirstNotCarried(rows, m)
  }

  ghost predicate Covered(s: State) {
    && Numbered(s.rows, s.counter)
    && Linked(s.rows, s.log)
    && AllReady(s.rows, s.counter, s.written)
    && NoneFirst(s.rows, s.measured)
    && SeenOrSummarized(s.rows, s.log)
  }

  lemma RowsNumbered(s: State)
    requires Covered(s)
    ensures Numbered(s.rows, s.counter) && Stored(s.rows)
  {
  }

  lemma LinkedAppend(rows: seq<Row>, row: Row, log: map<MessageId, Written>)
    requires Linked(rows, log)
    requires row.message.kind.Compaction?
        ==> row.id.Some? && row.id.value in log && log[row.id.value].summary.base == Latest(rows)
    ensures Linked(rows + [row], log)
  {
    var after := rows + [row];
    forall k | 0 <= k < |after| ensures LinkedAt(after, log, k) {
      if k < |rows| {
        assert LinkedAt(rows, log, k);
        assert after[k] == rows[k] && after[..k] == rows[..k];
      } else {
        assert after[..|rows|] == rows;
      }
    }
  }

  lemma IdStays(rows: seq<Row>, row: Row, id: MessageId)
    requires Some(id) in IdsOf(rows)
    ensures Some(id) in IdsOf(rows + [row])
  {
    var k :| 0 <= k < |rows| && IdsOf(rows)[k] == Some(id);
    assert IdsOf(rows + [row])[k] == Some(id);
  }

  lemma IdBound(rows: seq<Row>, counter: nat, id: MessageId)
    requires Numbered(rows, counter) && Some(id) in IdsOf(rows)
    ensures id <= counter
  {
    var k :| 0 <= k < |rows| && IdsOf(rows)[k] == Some(id);
  }

  lemma NumberedAppend(rows: seq<Row>, counter: nat, message: Message)
    requires Numbered(rows, counter)
    ensures Numbered(rows + [Row(Some(counter + 1), message)], counter + 1)
  {
  }

  lemma ReadyAppend(rows: seq<Row>, counter: nat, message: Message, w: Written)
    requires Numbered(rows, counter) && message.kind.Conversation? && Ready(rows, counter, w)
    ensures Ready(rows + [Row(Some(counter + 1), message)], counter + 1, w)
  {
    hide Stored;
    var row := Row(Some(counter + 1), message);
    NumberedAppend(rows, counter, message);
    VisibleAfterAppend(rows, row);
    IdStays(rows, row, w.summary.through);
    IdBound(rows, counter, w.summary.through);
    assert UpTo(Visible(rows) + {counter + 1}, w.summary.through) == UpTo(Visible(rows), w.summary.through);
  }

  lemma AllReadyAppend(rows: seq<Row>, counter: nat, message: Message, written: set<Written>)
    requires Numbered(rows, counter) && message.kind.Conversation? && AllReady(rows, counter, written)
    ensures AllReady(rows + [Row(Some(counter + 1), message)], counter + 1, written)
  {
    forall w | w in written ensures Ready(rows + [Row(Some(counter + 1), message)], counter + 1, w) {
      ReadyAppend(rows, counter, message, w);
    }
  }

  lemma SeenAppend(rows: seq<Row>, counter: nat, message: Message, log: map<MessageId, Written>)
    requires Numbered(rows, counter) && message.kind.Conversation? && SeenOrSummarized(rows, log)
    ensures SeenOrSummarized(rows + [Row(Some(counter + 1), message)], log)
  {
    NumberedAppend(rows, counter, message);
    VisibleAfterAppend(rows, Row(Some(counter + 1), message));
  }

  lemma FirstStays(rows: seq<Row>, row: Row, measured: set<Measured>)
    requires NoneFirst(rows, measured)
    ensures NoneFirst(rows + [row], measured)
  {
    assert |rows| > 0 ==> (rows + [row])[0] == rows[0];
  }

  lemma CoveredAppend(s: State, message: Message)
    requires Covered(s) && message.kind.Conversation?
    ensures Covered(Appended(s, message))
  {
    hide Numbered, Linked, AllReady, NoneFirst, SeenOrSummarized;
    AppendKeepsRows(s.rows, s.counter, s.log, s.measured, Row(Some(s.counter + 1), message));
    AllReadyAppend(s.rows, s.counter, message, s.written);
    SeenAppend(s.rows, s.counter, message, s.log);
  }

  lemma AppendKeepsRows(rows: seq<Row>, counter: nat, log: map<MessageId, Written>, measured: set<Measured>, row: Row)
    requires Numbered(rows, counter) && Linked(rows, log) && NoneFirst(rows, measured)
    requires row.id == Some(counter + 1)
    requires row.message.kind.Compaction? ==> counter + 1 in log && log[counter + 1].summary.base == Latest(rows)
    ensures Numbered(rows + [row], counter + 1) && Linked(rows + [row], log) && NoneFirst(rows + [row], measured)
  {
    NumberedAppend(rows, counter, row.message);
    LinkedAppend(rows, row, log);
    FirstStays(rows, row, measured);
  }

  lemma LatestId(rows: seq<Row>)
    requires Stored(rows)
    ensures Latest(ListForModel(rows)) == Latest(rows)
    ensures Latest(rows).Some? ==> Latest(rows) in IdsOf(rows)
    ensures ModelView(rows).compactionId == Latest(rows)
  {
    ListSplits(rows);
    var at := LastCompaction(rows);
    if at >= 0 {
      assert IdsOf(rows)[at] == rows[at].id;
    }
  }

  /** A cut in the model's view gives a boundary and the messages through it. */
  lemma CutInput(rows: seq<Row>, cut: nat)
    requires Stored(rows)
    requires 1 <= cut <= |ModelView(rows).ids| && ModelView(rows).ids[cut - 1].Some?
    ensures var through := ModelView(rows).ids[cut - 1];
      && through in IdsOf(rows)
      && SomeIds(ModelView(rows).ids[..cut]) == UpTo(Visible(rows), through.value)
  {
    var list := ListForModel(rows);
    var ids := ModelView(rows).ids;
    ListForModelStored(rows);
    ViewPrefix(list, cut);
    ViewIds(list);
    assert ids[cut - 1].value in SomeIds(ids);
    VisibleStored(rows);
    var k :| 0 <= k < |rows| && rows[k].message.kind.Conversation? && rows[k].id == Some(ids[cut - 1].value);
    assert IdsOf(rows)[k] == ids[cut - 1];
  }

  /** The first stored message never comes back as the first carried one at a view's start. */
  lemma CutIsPositive(rows: seq<Row>, trigger: Trigger)
    requires Stored(rows)
    requires trigger.carried != [] ==> |rows| > 0 && rows[0].id != Some(trigger.carried[0])
    requires Cut(ModelView(rows), trigger).Ok? && |ModelView(rows).ids| > 0
    ensures Cut(ModelView(rows), trigger).value >= 1
  {
    var list := ListForModel(rows);
    var view := ModelView(rows);
    ListForModelStored(rows);
    ViewIds(list);
    LatestId(rows);
    if LastCompaction(list) < 0 && |rows| > 0 {
      ListSplits(rows);
      assert view.ids[0] == rows[0].id;
    }
  }

  lemma WriteIsReady(rows: seq<Row>, counter: nat, m: Measured, text: string)
    requires Numbered(rows, counter) && FirstNotCarried(rows, m)
    requires Summarize(rows, m.trigger, text).Ok?
    ensures var (summary, input) := Summarize(rows, m.trigger, text).value;
      Ready(rows, counter, Written(summary, input))
  {
    var cut := Cut(ModelView(rows), m.trigger).value;
    CutIsPositive(rows, m.trigger);
    CutInput(rows, cut);
    LatestId(rows);
    if Latest(rows).Some? {
      IdBound(rows, counter, Latest(rows).value);
    }
  }

  lemma CoveredWrite(s: State, m: Measured, text: string)
    requires Covered(s) && m in s.measured
    ensures Covered(Next(s, Write(m, text)))
  {
    if Summarize(s.rows, m.trigger, text).Ok? {
      WriteIsReady(s.rows, s.counter, m, text);
    }
  }

  lemma CarriedAfterFirst(rows: seq<Row>, reason: string, tokens: int, images: int)
    requires Stored(rows) && TriggerFor(rows, false, reason, tokens, images).Some?
    ensures var trigger := TriggerFor(rows, false, reason, tokens, images).value;
      && trigger.through.None?
      && (trigger.carried != [] ==> |rows| > 0 && rows[0].id != Some(trigger.carried[0]))
  {
    var view := ModelView(rows);
    var start := PendingStart(view.messages, Floor(view));
    var trigger := TriggerFor(rows, false, reason, tokens, images).value;
    ListForModelStored(rows);
    ViewIds(ListForModel(rows));
    if trigger.carried != [] {
      assert view.ids[start..][0] == view.ids[start];
      CutInput(rows, start);
      var k :| 0 <= k < |rows| && IdsOf(rows)[k] == view.ids[start - 1];
      assert rows[0].id.value <= rows[k].id.value < trigger.carried[0];
    }
  }

  lemma MeasuredAfterFirst(rows: seq<Row>, measured: set<Measured>, ahead: bool, reason: string, tokens: int,
        images: int)
    requires Stored(rows) && NoneFirst(rows, measured) && TriggerFor(rows, ahead, reason, tokens, images).Some?
    ensures NoneFirst(rows, measured + {Measured(TriggerFor(rows, ahead, reason, tokens, images).value, |rows|)})
  {
    hide Stored, Latest, LastCompaction;
    if !ahead {
      CarriedAfterFirst(rows, reason, tokens, images);
    }
  }

  lemma CoveredMeasure(s: State, ahead: bool, reason: string, tokens: int, images: int)
    requires Covered(s)
    ensures Covered(Next(s, Measure(ahead, reason, tokens, images)))
  {
    hide Numbered, Linked, AllReady, SeenOrSummarized, NoneFirst, Stored, TriggerFor;
    RowsNumbered(s);
    if TriggerFor(s.rows, ahead, reason, tokens, images).Some? {
      MeasuredAfterFirst(s.rows, s.measured, ahead, reason, tokens, images);
    }
  }

  lemma ReadyStore(rows: seq<Row>, counter: nat, block: CompactionBlock, w: Written)
    requires Numbered(rows, counter) && Ready(rows, counter, w)
    ensures Ready(WithSummary(rows, counter + 1, block), counter + 1, w)
  {
    var row := Row(Some(counter + 1), CompactionMessage(block));
    IdStays(rows, row, w.summary.through);
    assert LastCompaction(rows + [row]) == |rows|;
  }

  lemma AllReadyStore(rows: seq<Row>, counter: nat, block: CompactionBlock, written: set<Written>)
    requires Numbered(rows, counter) && AllReady(rows, counter, written)
    ensures AllReady(WithSummary(rows, counter + 1, block), counter + 1, written)
  {
    forall w | w in written ensures Ready(WithSummary(rows, counter + 1, block), counter + 1, w) {
      ReadyStore(rows, counter, block, w);
    }
  }

  /** Storing moves everything visible through the boundary into the chain. */
  lemma SeenStore(rows: seq<Row>, counter: nat, log: map<MessageId, Written>, w: Written, settings: Settings,
        images: seq<Message> -> int)
    requires Numbered(rows, counter) && SeenOrSummarized(rows, log) && Ready(rows, counter, w)
    requires StoredAs(rows, w.summary, settings, images).Block?
    ensures SeenOrSummarized(WithSummary(rows, counter + 1, StoredAs(rows, w.summary, settings, images).block),
        log[counter + 1 := w])
  {
    hide Stored, StoredAs, KeptIds;
    BlockIsCurrent(rows, w.summary, settings, images);
    var id := counter + 1;
    var row := Row(Some(id), CompactionMessage(StoredAs(rows, w.summary, settings, images).block));
    LatestId(rows);
    VisibleAfterStore(rows, id, w.summary, settings, images);
    if Latest(rows).Some? {
      IdBound(rows, counter, Latest(rows).value);
    }
    ChainStays(log, Latest(rows), id, w);
    MessageIdsAppend(rows, row);
  }

  lemma StoreKeepsRows(rows: seq<Row>, counter: nat, log: map<MessageId, Written>, measured: set<Measured>,
        w: Written, block: CompactionBlock)
    requires Numbered(rows, counter) && Linked(rows, log) && NoneFirst(rows, measured)
    requires w.summary.base == Latest(rows)
    ensures var after := WithSummary(rows, counter + 1, block);
      Numbered(after, counter + 1) && Linked(after, log[counter + 1 := w]) && NoneFirst(after, measured)
  {
    hide Linked, NoneFirst;
    LinkedLog(rows, log, counter, w);
    AppendKeepsRows(rows, counter, log[counter + 1 := w], measured, Row(Some(counter + 1), CompactionMessage(block)));
  }

  lemma BlockIsCurrent(rows: seq<Row>, summary: Summary, settings: Settings, images: seq<Message> -> int)
    requires Stored(rows) && StoredAs(rows, summary, settings, images).Block?
    ensures summary.base == Latest(rows)
  {
    LatestId(rows);
  }

  lemma CoveredBlock(s: State, w: Written, settings: Settings, images: seq<Message> -> int)
    requires Covered(s) && w in s.written && StoredAs(s.rows, w.summary, settings, images).Block?
    ensures Covered(WithBlock(s, w, StoredAs(s.rows, w.summary, settings, images).block))
  {
    hide Numbered, Linked, Ready, NoneFirst, SeenOrSummarized, StoredAs, Stored, Latest;
    RowsNumbered(s);
    BlockIsCurrent(s.rows, w.summary, settings, images);
    var block := StoredAs(s.rows, w.summary, settings, images).block;
    StoreKeepsRows(s.rows, s.counter, s.log, s.measured, w, block);
    AllReadyStore(s.rows, s.counter, block, s.written);
    SeenStore(s.rows, s.counter, s.log, w, settings, images);
  }

  lemma CoveredStore(s: State, w: Written, settings: Settings, images: int)
    requires Covered(s) && w in s.written
    ensures Covered(Next(s, Store(w, settings, images)))
  {
    hide Covered, StoredAs, WithBlock;
    if StoredAs(s.rows, w.summary, settings, Counted(images)).Block? {
      CoveredBlock(s, w, settings, Counted(images));
    }
  }

  lemma LinkedLog(rows: seq<Row>, log: map<MessageId, Written>, counter: nat, w: Written)
    requires Numbered(rows, counter) && Linked(rows, log)
    ensures Linked(rows, log[counter + 1 := w])
  {
    var logged := log[counter + 1 := w];
    forall k | 0 <= k < |rows| ensures LinkedAt(rows, logged, k) {
      assert LinkedAt(rows, log, k);
    }
  }

  lemma CoveredNext(s: State, step: Step)
    requires Covered(s) && Allowed(s, step)
    ensures Covered(Next(s, step))
  {
    match step
    case OtherThread =>
    case Inbound(content, tag) => CoveredAppend(s, UserMessage(content, tag));
    case Answer(content, calls, usage, unseen) => CoveredAppend(s, AssistantMessage(content, calls, usage, unseen));
    case ToolResult(call, name, result) => CoveredAppend(s, ToolMessage(call, name, result));
    case Measure(ahead, reason, tokens, images) => CoveredMeasure(s, ahead, reason, tokens, images);
    case Write(m, text) => CoveredWrite(s, m, text);
    case Store(w, settings, images) => CoveredStore(s, w, settings, images);
  }

  /** In every run, each stored message is in the model's view or was written into the chain
      of summaries that ends in the current one; and a ready summary's boundary is stored. */
  lemma {:induction false} NothingIsLost(steps: seq<Step>)
    requires Run(steps)
    ensures Covered(After(steps))
  {
    if steps != [] {
      NothingIsLost(steps[..|steps| - 1]);
      CoveredNext(After(steps[..|steps| - 1]), steps[|steps| - 1]);
    }
  }

  /** The same, message by message: seen now, or summarized into the current summary. A written
      summary's boundary is always found, so storing it either works or finds it stale. */
  lemma EveryMessageIsSeenOrSummarized(steps: seq<Step>, id: MessageId, w: Written, settings: Settings,
        images: seq<Message> -> int)
    requires Run(steps)
    ensures var s := After(steps);
      && (id in MessageIds(s.rows) ==> id in Visible(s.rows) || id in Chain(s.log, Latest(s.rows)))
      && (w in s.written ==> !StoredAs(s.rows, w.summary, settings, images).Unknown?)
      && (w in s.written ==> (StoredAs(s.rows, w.summary, settings, images).Stale?
          <==> w.summary.base != Latest(s.rows)))
  {
    NothingIsLost(steps);
    LatestId(After(steps).rows);
  }

  lemma {:induction false} LatestReaches(rows: seq<Row>, j: nat, k: nat)
    requires Stored(rows) && j < k <= |rows| && rows[j].message.kind.Compaction?
    ensures Latest(rows[..k]).Some? && Latest(rows[..k]).value >= rows[j].id.value
  {
    var at := LastCompaction(rows[..k]);
    assert rows[..k][j] == rows[j];
    assert at >= j;
    assert rows[..k][at] == rows[at];
  }

  /** Of the summaries started over one base, one at most is ever stored, whoever wrote them. */
  lemma OneSummaryPerBase(steps: seq<Step>, j: nat, k: nat)
    requires Run(steps)
    requires j < k < |After(steps).rows|
    requires After(steps).rows[j].message.kind.Compaction? && After(steps).rows[k].message.kind.Compaction?
    ensures var s := After(steps);
      && s.rows[j].id.Some? && s.rows[j].id.value in s.log && s.rows[k].id.Some? && s.rows[k].id.value in s.log
      && s.log[s.rows[j].id.value].summary.base != s.log[s.rows[k].id.value].summary.base
  {
    NothingIsLost(steps);
    var s := After(steps);
    assert LinkedAt(s.rows, s.log, j) && LinkedAt(s.rows, s.log, k);
    LatestReaches(s.rows, j, k);
    var at := LastCompaction(s.rows[..j]);
    assert at >= 0 ==> s.rows[..j][at] == s.rows[at];
  }

  /** In every run, the cut of a summary that is written is past the start of the view, so the last
      id, which a cut at the start would read instead, never becomes a boundary. */
  lemma ReachableCutIsPositive(steps: seq<Step>, m: Measured)
    requires Run(steps) && m in After(steps).measured
    ensures var s := After(steps);
      Cut(ModelView(s.rows), m.trigger).Ok? && |ModelView(s.rows).ids| > 0 ==>
        Cut(ModelView(s.rows), m.trigger).value >= 1
  {
    NothingIsLost(steps);
    RowsNumbered(After(steps));
    hide Numbered, Linked, AllReady, SeenOrSummarized, Stored;
    var s := After(steps);
    assert FirstNotCarried(s.rows, m);
    if Cut(ModelView(s.rows), m.trigger).Ok? && |ModelView(s.rows).ids| > 0 {
      CutIsPositive(s.rows, m.trigger);
    }
  }
}
