/** What the stored summaries say, over every run: the text that was written for them, and the figures of
    the turn they were triggered by. */
module Summaries {
  import opened Messages
  import opened Views
  import opened Transcript
  import opened Pairs
  import opened CompactionRuns

  /** A block says what a summary says, and why it was written. */
  ghost predicate Says(block: CompactionBlock, summary: Summary) {
    && block.summary == summary.text && block.reason == summary.trigger.reason
    && block.tokensBefore == summary.trigger.tokens && block.imagesBefore == summary.trigger.images
  }

  /** Every compaction row says what the summary logged for it says. */
  ghost predicate Logged(s: State) {
    forall k :: 0 <= k < |s.rows| ==> LoggedAt(s.rows, s.log, k)
  }

  ghost predicate LoggedAt(rows: seq<Row>, log: map<MessageId, Written>, k: nat)
    requires k < |rows|
  {
    rows[k].message.kind.Compaction? ==>
      && rows[k].id.Some? && rows[k].id.value in log
      && Says(rows[k].message.kind.block, log[rows[k].id.value].summary)
  }

  lemma LoggedAppend(s: State, message: Message)
    requires Numbered(s.rows, s.counter) && Logged(s) && message.kind.Conversation?
    ensures Logged(Appended(s, message))
  {
    var after := Appended(s, message);
    forall k | 0 <= k < |after.rows| ensures LoggedAt(after.rows, after.log, k) {
      assert k < |s.rows| ==> LoggedAt(s.rows, s.log, k);
    }
  }

  lemma StoredSays(rows: seq<Row>, summary: Summary, settings: Settings, images: seq<Message> -> int)
    requires StoredAs(rows, summary, settings, images).Block?
    ensures Says(StoredAs(rows, summary, settings, images).block, summary)
  {
    hide Latest, ListForModel, Chosen, Keep, KeptList, ViewOf, MeasureTokens, Before;
  }

  lemma LoggedBlock(s: State, w: Written, block: CompactionBlock)
    requires Numbered(s.rows, s.counter) && Logged(s) && Says(block, w.summary)
    ensures Logged(WithBlock(s, w, block))
  {
    var after := WithBlock(s, w, block);
    hide Says;
    forall k | 0 <= k < |after.rows| ensures LoggedAt(after.rows, after.log, k) {
      if k < |s.rows| {
        assert LoggedAt(s.rows, s.log, k) && after.rows[k] == s.rows[k];
      } else {
        assert after.rows[k] == Row(Some(s.counter + 1), CompactionMessage(block));
      }
    }
  }

  lemma LoggedStore(s: State, w: Written, settings: Settings, images: int)
    requires Numbered(s.rows, s.counter) && Logged(s)
    ensures Logged(Next(s, Store(w, settings, images)))
  {
    hide Numbered, Logged, StoredAs, WithBlock;
    if StoredAs(s.rows, w.summary, settings, Counted(images)).Block? {
      StoredSays(s.rows, w.summary, settings, Counted(images));
      LoggedBlock(s, w, StoredAs(s.rows, w.summary, settings, Counted(images)).block);
    }
  }

  lemma LoggedNext(s: State, step: Step)
    requires Numbered(s.rows, s.counter) && Logged(s) && Allowed(s, step)
    ensures Logged(Next(s, step))
  {
    match step
    case Inbound(content, tag) => LoggedAppend(s, UserMessage(content, tag));
    case Answer(content, calls, usage, unseen) => LoggedAppend(s, AssistantMessage(content, calls, usage, unseen));
    case ToolResult(call, name, result) => LoggedAppend(s, ToolMessage(call, name, result));
    case Store(w, settings, images) => LoggedStore(s, w, settings, images);
    case _ =>
  }

  lemma {:induction false} EveryRunIsLogged(steps: seq<Step>)
    requires Run(steps)
    ensures Logged(After(steps))
  {
    if steps != [] {
      var last := |steps| - 1;
      EveryRunIsLogged(steps[..last]);
      NothingIsLost(steps[..last]);
      LoggedNext(After(steps[..last]), steps[last]);
    }
  }

  // ---------- Where texts and figures come from ----------

  /** The summary was written at step `j`, with the text the model gave there. */
  ghost predicate WrittenAt(steps: seq<Step>, j: nat, w: Written) {
    j < |steps| && steps[j].Write? && steps[j].text == w.summary.text && steps[j].measured.trigger == w.summary.trigger
  }

  /** The turn was measured at step `i`, with these figures. */
  ghost predicate MeasuredAt(steps: seq<Step>, i: nat, trigger: Trigger) {
    && i < |steps| && steps[i].Measure?
    && steps[i].reason == trigger.reason && steps[i].tokens == trigger.tokens && steps[i].images == trigger.images
  }

  lemma {:induction false} MeasuredComesFrom(steps: seq<Step>, m: Measured) returns (i: nat)
    requires Run(steps) && m in After(steps).measured
    ensures MeasuredAt(steps, i, m.trigger)
  {
    var last := |steps| - 1;
    if m in After(steps[..last]).measured {
      i := MeasuredComesFrom(steps[..last], m);
    } else {
      i := last;
    }
  }

  lemma {:induction false} WrittenComesFrom(steps: seq<Step>, w: Written) returns (i: nat, j: nat)
    requires Run(steps) && w in After(steps).written
    ensures i < j && WrittenAt(steps, j, w) && MeasuredAt(steps, i, w.summary.trigger)
  {
    var last := |steps| - 1;
    var before := After(steps[..last]);
    if w in before.written {
      i, j := WrittenComesFrom(steps[..last], w);
    } else {
      j := last;
      i := MeasuredComesFrom(steps[..last], steps[last].measured);
    }
  }

  lemma {:induction false} LoggedComesFrom(steps: seq<Step>, id: MessageId) returns (i: nat, j: nat)
    requires Run(steps) && id in After(steps).log
    ensures i < j && WrittenAt(steps, j, After(steps).log[id])
    ensures MeasuredAt(steps, i, After(steps).log[id].summary.trigger)
  {
    var last := |steps| - 1;
    var before, w := After(steps[..last]), After(steps).log[id];
    if id in before.log && before.log[id] == w {
      i, j := LoggedComesFrom(steps[..last], id);
    } else {
      i, j := WrittenComesFrom(steps[..last], w);
    }
  }

  /** In every run, a compaction row holds the text that was written for it, and the reason and the
      figures of the turn that triggered it. */
  lemma SummaryIsWhatWasWritten(steps: seq<Step>, k: nat) returns (i: nat, j: nat)
    requires Run(steps) && k < |After(steps).rows| && After(steps).rows[k].message.kind.Compaction?
    ensures i < j < |steps| && steps[i].Measure? && steps[j].Write?
    ensures var block := After(steps).rows[k].message.kind.block;
      && block.summary == steps[j].text
      && block.reason == steps[i].reason && block.tokensBefore == steps[i].tokens
      && block.imagesBefore == steps[i].images
  {
    EveryRunIsLogged(steps);
    var s := After(steps);
    assert LoggedAt(s.rows, s.log, k);
    i, j := LoggedComesFrom(steps, s.rows[k].id.value);
  }

  /** What a model is told of a conversation that was compacted to `text`. */
  function Told(text: string): Message {
    var opening :=
    "<context_summary>\nThis conversation was compacted. It continues from this summary of everything before it:\n\n";
    Message(User, Plain(opening + text + "\n</context_summary>"), [], None, None, None, Conversation, None, 0)
  }

  lemma LatestIsSaid(rows: seq<Row>)
    requires LastCompaction(rows) >= 0
    ensures var view := ModelView(rows);
      |view.messages| > 0
      && view.messages[0] == SummaryMessage(rows[LastCompaction(rows)].message.kind.block.summary)
  {
    var at := LastCompaction(rows);
    var head := Keep(rows[..at], ToSet(rows[at].message.kind.block.kept));
    var list := ListForModel(rows);
    assert list[|head|] == rows[at];
    forall k | |head| < k < |list| ensures list[k].message.kind.Conversation? {
      assert list[k] == rows[at + (k - |head|)];
    }
    assert LastCompaction(list) == |head|;
  }

  /** In every run with a stored summary, the model is first told that the conversation was compacted,
      with the text of the latest one, which the model wrote at step `j`. */
  lemma ViewStartsWithSummary(steps: seq<Step>) returns (j: nat)
    requires Run(steps) && LastCompaction(After(steps).rows) >= 0
    ensures j < |steps| && steps[j].Write?
    ensures var view := ModelView(After(steps).rows);
      && |view.messages| > 0
      && view.messages[0] == Told(steps[j].text)
  {
    hide Run, After, ModelView;
    var rows := After(steps).rows;
    LatestIsSaid(rows);
    var i: nat;
    i, j := SummaryIsWhatWasWritten(steps, LastCompaction(rows));
  }

  // ---------- What a summary replaces ----------

  lemma FoundAt(ids: seq<Option<MessageId>>, k: nat)
    requires Rising(ids) && k < |ids| && ids[k].Some?
    ensures IndexOf(ids, ids[k]) == k
  {
  }

  /** The ids of a view: one for each message, rising, and none missing but a summary's. */
  ghost predicate HasIds(view: View) {
    && |view.ids| == |view.messages| && Rising(view.ids)
    && forall k :: Floor(view) <= k < |view.ids| ==> view.ids[k].Some?
  }

  lemma ViewHasIds(rows: seq<Row>)
    requires Stored(rows)
    ensures HasIds(ModelView(rows))
  {
    ListForModelStored(rows);
    ViewIds(ListForModel(rows));
  }

  lemma CutThrough(after: View, ids: seq<Option<MessageId>>, start: nat, trigger: Trigger)
    requires HasIds(after) && ids <= after.ids && 0 < start <= |ids| && ids[start - 1].Some?
    requires trigger.through == ids[start - 1]
    ensures Cut(after, trigger) == Ok(start)
  {
    assert after.ids[start - 1] == ids[start - 1];
    FoundAt(after.ids, start - 1);
  }

  lemma CutCarried(view: View, start: nat, trigger: Trigger)
    requires HasIds(view) && Floor(view) < start <= |view.ids|
    requires trigger.through.None? && trigger.carried == Values(view.ids[start..])
    ensures Cut(view, trigger) == Ok(start)
  {
    if start < |view.ids| {
      var rest := view.ids[start..];
      assert forall k :: 0 <= k < |rest| ==> rest[k].Some?;
      assert trigger.carried[0] == rest[0].value;
      FoundAt(view.ids, start);
    }
  }

  lemma TriggerNamesStart(rows: seq<Row>, ahead: bool, reason: string, tokens: int, images: int)
    requires HasIds(ModelView(rows))
    ensures var view := ModelView(rows);
      var start := PendingStart(view.messages, Floor(view));
      TriggerFor(rows, ahead, reason, tokens, images) ==
      if start <= Floor(view) then None
      else if ahead then Some(Trigger(reason, tokens, images, view.ids[start - 1], []))
      else Some(Trigger(reason, tokens, images, None, Values(view.ids[start..])))
  {
    hide ModelView, PendingStart, Values, Rising;
  }

  lemma SummarizeAt(rows: seq<Row>, trigger: Trigger, text: string, start: nat)
    requires HasIds(ModelView(rows)) && Cut(ModelView(rows), trigger) == Ok(start)
    requires 0 < start <= |ModelView(rows).ids| && ModelView(rows).ids[start - 1].Some?
    ensures var view := ModelView(rows);
      Summarize(rows, trigger, text) ==
      Ok((Summary(text, view.ids[start - 1].value, view.compactionId, trigger), SomeIds(view.ids[..start])))
  {
    hide ModelView, Cut, Rising, SomeIds;
  }

  /** A turn past a limit triggers a summary exactly when something was answered since the last one, and
      the summary replaces all of the view but its pending part: the last answer with calls and what
      follows it, or what follows the last answer. A background one does so however much was said by
      the time it is written. */
  lemma SummaryLeavesPending(rows: seq<Row>, later: seq<Row>, ahead: bool, reason: string, tokens: int, images: int,
        text: string)
    requires Stored(rows) && Stored(later)
    requires if ahead then ModelView(rows).ids <= ModelView(later).ids else later == rows
    ensures var view := ModelView(rows);
      var start := PendingStart(view.messages, Floor(view));
      var trigger := TriggerFor(rows, ahead, reason, tokens, images);
      && (trigger.Some? <==> start > Floor(view))
      && (trigger.Some? ==>
            && start <= |view.ids| && view.ids[start - 1].Some?
            && Summarize(later, trigger.value, text) ==
                 Ok((Summary(text, view.ids[start - 1].value, ModelView(later).compactionId, trigger.value),
                     SomeIds(view.ids[..start]))))
  {
    ViewHasIds(rows);
    ViewHasIds(later);
    TriggerNamesStart(rows, ahead, reason, tokens, images);
    hide ModelView, Stored, SomeIds, Rising, Cut, Values, PendingStart, TriggerFor, Summarize;
    var view, after := ModelView(rows), ModelView(later);
    var start := PendingStart(view.messages, Floor(view));
    if start > Floor(view) {
      var trigger := TriggerFor(rows, ahead, reason, tokens, images).value;
      if ahead {
        CutThrough(after, view.ids, start, trigger);
      } else {
        CutCarried(view, start, trigger);
      }
      SummarizeAt(later, trigger, text, start);
      assert after.ids[..start] == view.ids[..start];
    }
  }
}
