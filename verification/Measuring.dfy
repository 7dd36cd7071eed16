/** What measuring a request counts: the latest usage reported in this context, and an estimate of the
    text no provider has counted. */
module Measuring {
  import opened Messages
  import opened Views
  import opened Transcript

  // ---------- Where reported usage describes the context ----------

  lemma {:induction false} RenderedAfter(rows: seq<Row>, at: nat)
    requires at < |rows| && rows[at].message.kind.Compaction?
    requires forall k :: at < k < |rows| ==> rows[k].message.kind.Conversation?
    ensures |Render(rows, at).messages| == |Render(rows[..at], at).messages| + (|rows| - 1 - at)
  {
    if |rows| - 1 > at {
      assert rows[..|rows| - 1][..at] == rows[..at];
      RenderedAfter(rows[..|rows| - 1], at);
    }
  }

  /** Row `k` stands past a given place among the rendered ones exactly when it is past the row there. */
  lemma RenderedPast(rows: seq<Row>, at: nat, i: nat) returns (k: nat)
    requires Stored(rows) && at < |rows| && rows[at].message.kind.Compaction?
    requires i < |Render(rows, at).messages|
    ensures k < |rows| && Render(rows, at).ids[i] == rows[k].id
    ensures i >= |Render(rows[..at], at).messages| <==> k > at
  {
    k := RenderFrom(rows, at, i);
    RenderAt(rows, at, k);
    if k < at {
      RenderOrder(rows, at, k, at);
    } else {
      assert rows[..k][..at] == rows[..at];
      RenderGrows(rows[..k], at, at);
    }
  }

  lemma {:induction false} RenderGrows(rows: seq<Row>, at: int, k: nat)
    requires k <= |rows|
    ensures |Render(rows[..k], at).messages| <= |Render(rows, at).messages|
  {
    if k < |rows| {
      assert rows[..|rows| - 1][..k] == rows[..k];
      RenderGrows(rows[..|rows| - 1], at, k);
    } else {
      assert rows[..k] == rows;
    }
  }

  /** Usage counts from the first message stored after the compaction row, and from the start when there
      is none. */
  lemma UsageStartsAfterSummary(rows: seq<Row>)
    requires Stored(rows)
    ensures var view := ViewOf(rows);
      && |view.ids| == |view.messages|
      && (view.compaction.Some? <==> view.compactionId.Some?)
      && (view.compaction.None? ==> view.usageFrom == 0)
      && (view.compaction.Some? ==>
            forall i :: 0 <= i < |view.ids| ==>
              (i >= view.usageFrom <==> view.ids[i].Some? && view.ids[i].value > view.compactionId.value))
  {
    var view := ViewOf(rows);
    var at := LastCompaction(rows);
    if at >= 0 {
      RenderedAfter(rows, at);
      forall i | 0 <= i < |view.ids|
        ensures i >= view.usageFrom <==> view.ids[i].Some? && view.ids[i].value > view.compactionId.value
      {
        if i > 0 {
          var k := RenderedPast(rows, at, i - 1);
        }
      }
    }
  }

  // ---------- Measuring ----------

  predicate Reports(message: Message) {
    message.role.Assistant? && message.usage.Some?
  }

  /** The latest usage reported at or past `from` and the text after it, or all the text when none is. */
  ghost predicate Measures(system: string, messages: seq<Message>, from: int, upTo: nat, tokens: nat)
    requires upTo <= |messages|
  {
    || (&& (forall k :: 0 <= k < upTo && k >= from ==> !Reports(messages[k]))
        && tokens == EstimateTokens(messages, system))
    || exists i :: 0 <= i < upTo && MeasuresAt(messages, from, upTo, i, tokens)
  }

  ghost predicate MeasuresAt(messages: seq<Message>, from: int, upTo: nat, i: nat, tokens: nat)
    requires i < upTo <= |messages|
  {
    && i >= from && Reports(messages[i])
    && (forall k :: i < k < upTo ==> !Reports(messages[k]))
    && tokens == messages[i].usage.value.0 + messages[i].usage.value.1 + EstimateTokens(messages[i + 1..], "")
  }

  lemma {:induction false} MeasureIsLatest(system: string, messages: seq<Message>, from: int, upTo: nat)
    requires upTo <= |messages|
    ensures Measures(system, messages, from, upTo, MeasureTokens(system, messages, from, upTo))
  {
    var tokens := MeasureTokens(system, messages, from, upTo);
    if upTo > 0 && upTo > from {
      var last := upTo - 1;
      if Reports(messages[last]) {
        assert MeasuresAt(messages, from, upTo, last, tokens);
      } else {
        MeasureIsLatest(system, messages, from, last);
        if i :| 0 <= i < last && MeasuresAt(messages, from, last, i, tokens) {
          assert MeasuresAt(messages, from, upTo, i, tokens);
        }
      }
    }
  }

  /** Shown message `i` was stored after the latest compaction row, if there is one. */
  predicate InContext(latest: Option<MessageId>, ids: seq<Option<MessageId>>, i: nat)
    requires i < |ids|
  {
    latest.Some? ==> ids[i].Some? && ids[i].value > latest.value
  }

  /** A measure uses the latest usage that was reported after the compaction row, and the text after it;
      without any, the text of the whole view. What was reported before that row measured the context
      the summary replaced, and never counts. */
  lemma OldUsageIsNotMeasured(rows: seq<Row>, system: string)
    requires Stored(rows)
    ensures |ModelView(rows).ids| == |ModelView(rows).messages|
    ensures var view := ModelView(rows);
      var tokens := MeasureTokens(system, view.messages, view.usageFrom, |view.messages|);
      || (&& (forall i :: 0 <= i < |view.ids| && InContext(Latest(rows), view.ids, i) ==> !Reports(view.messages[i]))
          && tokens == EstimateTokens(view.messages, system))
      || exists i :: 0 <= i < |view.ids| && InContext(Latest(rows), view.ids, i) && Reports(view.messages[i])
           && (forall k :: i < k < |view.ids| ==> !Reports(view.messages[k]))
           && tokens == view.messages[i].usage.value.0 + view.messages[i].usage.value.1
                        + EstimateTokens(view.messages[i + 1..], "")
  {
    var view := ModelView(rows);
    ListForModelStored(rows);
    UsageStartsAfterSummary(ListForModel(rows));
    LatestIsListed(rows);
    hide ListForModel, ViewOf, MeasureTokens, EstimateTokens, Stored, Latest;
    assert forall i :: 0 <= i < |view.ids| ==> (InContext(Latest(rows), view.ids, i) <==> i >= view.usageFrom);
    MeasureIsLatest(system, view.messages, view.usageFrom, |view.messages|);
    var tokens := MeasureTokens(system, view.messages, view.usageFrom, |view.messages|);
    if i :| 0 <= i < |view.messages| && MeasuresAt(view.messages, view.usageFrom, |view.messages|, i, tokens) {
      assert InContext(Latest(rows), view.ids, i);
    }
  }

  lemma LatestIsListed(rows: seq<Row>)
    ensures ModelView(rows).compactionId == Latest(rows)
  {
    var at := LastCompaction(rows);
    if at >= 0 {
      var head := Keep(rows[..at], ToSet(rows[at].message.kind.block.kept));
      var list := ListForModel(rows);
      assert list[|head|] == rows[at];
      forall k | |head| < k < |list| ensures list[k].message.kind.Conversation? {
        assert list[k] == rows[at + (k - |head|)];
      }
      assert LastCompaction(list) == |head|;
    }
  }

  /** So a summary is stored with an estimate of the view it leaves, whatever the messages it carries
      reported. */
  lemma TokensAfterIsEstimate(rows: seq<Row>, id: MessageId, summary: Summary, settings: Settings,
        images: seq<Message> -> int)
    requires Stored(rows) && StoredAs(rows, summary, settings, images).Block?
    ensures var block := StoredAs(rows, summary, settings, images).block;
      block.tokensAfter == EstimateTokens(ModelView(WithSummary(rows, id, block)).messages, settings.system)
  {
    var block := StoredAs(rows, summary, settings, images).block;
    MeasuredViewIsNextView(rows, id, summary, settings, images);
    ListAfterStore(rows, id, summary, settings, images);
    var kept := Keep(rows, Chosen(rows, Before(rows, summary.through), settings.keep));
    var list := kept + [Row(Some(id), CompactionMessage(block))];
    assert LastCompaction(list) == |kept|;
    var next := ViewOf(list);
    assert next.usageFrom == |next.messages|;
    MeasureIsLatest(settings.system, next.messages, next.usageFrom, |next.messages|);
  }

  // ---------- The estimate ----------

  function Joined(texts: seq<string>): string {
    if texts == [] then "" else Joined(texts[..|texts| - 1]) + texts[|texts| - 1]
  }

  function BlockTexts(blocks: seq<Block>): seq<string> {
    seq(|blocks|, k requires 0 <= k < |blocks| => if blocks[k].TextBlock? then blocks[k].text else "")
  }

  function CallTexts(calls: seq<ToolCall>): seq<string> {
    seq(|calls|, k requires 0 <= k < |calls| => calls[k].name + calls[k].arguments)
  }

  /** All a message says: its text, and the names and arguments of its calls. */
  function Says(message: Message): string {
    (match message.content
     case NoContent => ""
     case Plain(text) => text
     case Blocks(blocks) => Joined(BlockTexts(blocks)))
    + Joined(CallTexts(message.toolCalls))
  }

  function SaysAll(messages: seq<Message>): string {
    Joined(seq(|messages|, k requires 0 <= k < |messages| => Says(messages[k])))
  }

  function Unseen(messages: seq<Message>): nat {
    if messages == [] then 0 else Unseen(messages[..|messages| - 1]) + messages[|messages| - 1].unseen
  }

  lemma {:induction false} TextCounts(blocks: seq<Block>)
    ensures TextLength(blocks) == |Joined(BlockTexts(blocks))|
  {
    if blocks != [] {
      var n := |blocks| - 1;
      TextCounts(blocks[..n]);
      assert BlockTexts(blocks)[..n] == BlockTexts(blocks[..n]);
    }
  }

  lemma {:induction false} CallsCount(calls: seq<ToolCall>)
    ensures CallLength(calls) == |Joined(CallTexts(calls))|
  {
    if calls != [] {
      var n := |calls| - 1;
      CallsCount(calls[..n]);
      assert CallTexts(calls)[..n] == CallTexts(calls[..n]);
    }
  }

  lemma {:induction false} CharactersCount(messages: seq<Message>)
    ensures Characters(messages) == |SaysAll(messages)| + Unseen(messages)
  {
    if messages != [] {
      var n := |messages| - 1;
      CharactersCount(messages[..n]);
      var all := seq(|messages|, k requires 0 <= k < |messages| => Says(messages[k]));
      assert all[..n] == seq(n, k requires 0 <= k < n => Says(messages[..n][k]));
      CallsCount(messages[n].toolCalls);
      if messages[n].content.Blocks? {
        TextCounts(messages[n].content.blocks);
      }
    }
  }

  /** The estimate is the least number of tokens that hold, at four characters each, the system prompt
      and everything the messages say. */
  lemma EstimateIsLeast(messages: seq<Message>, system: string)
    ensures var characters := |system + SaysAll(messages)| + Unseen(messages);
      var tokens := EstimateTokens(messages, system);
      4 * tokens >= characters && forall n: nat :: 4 * n >= characters ==> tokens <= n
  {
    CharactersCount(messages);
  }
}
