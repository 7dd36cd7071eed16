/** What the model sees of a transcript: the latest compaction rendered as its summary, the
    rows it keeps, and every row after it. */
module Views {
  import opened Messages

  const SUMMARY_PREFIX: string :=
    "<context_summary>\nThis conversation was compacted. It continues from this summary of everything before it:\n\n"
  const SUMMARY_SUFFIX: string := "\n</context_summary>"
  const CHARS_PER_TOKEN: nat := 4

  datatype View = View(
    messages: seq<Message>,
    ids: seq<Option<MessageId>>,
    usageFrom: int,
    compaction: Option<CompactionBlock>,
    compactionId: Option<MessageId>)

  function SummaryMessage(summary: string): Message {
    UserMessage(Plain(SUMMARY_PREFIX + summary + SUMMARY_SUFFIX), None)
  }

  function RoleName(role: Role): string {
    match role
    case System => "system"
    case User => "user"
    case Assistant => "assistant"
    case Tool => "tool"
  }

  /** A kept message whose turn the summary replaced: a user message with its content. */
  function Retained(message: Message): Message {
    if message.role.User? then message
    else
      var tag := if message.tag.Some? then message.tag.value else "None";
      var heading := TextBlock(
        "<retained tag=\"" + tag + "\">Kept verbatim across compaction: the latest "
        + RoleName(message.role) + " message with this tag.</retained>");
      var body := match message.content
        case Blocks(blocks) => blocks
        case Plain(text) => [TextBlock(text)]
        case NoContent => [TextBlock("")];
      UserMessage(Blocks([heading] + body), message.tag)
  }

  /** A message carried past the turn it belonged to: the user's words as they were, anything else a
      user message that first says what it is, then its content, block by block. */
  ghost predicate KeptVerbatim(original: Message, shown: Message) {
    if original.role.User? then shown == original
    else
      && shown.role.User? && shown.tag == original.tag && shown.kind.Conversation?
      && shown.toolCalls == [] && shown.toolCallId.None? && shown.name.None? && shown.usage.None? && shown.unseen == 0
      && shown.content.Blocks? && |shown.content.blocks| >= 1
      && (original.role.Tool? && original.tag.Some? ==>
            shown.content.blocks[0] == TextBlock(
              "<retained tag=\"" + original.tag.value + "\">Kept verbatim across compaction: the latest "
              + "tool message with this tag.</retained>"))
      && match original.content
         case Blocks(blocks) => shown.content.blocks[1..] == blocks
         case Plain(text) => shown.content.blocks[1..] == [TextBlock(text)]
         case NoContent => shown.content.blocks[1..] == [TextBlock("")]
  }

  lemma RetainedIsVerbatim(message: Message)
    ensures KeptVerbatim(message, Retained(message))
  {
    if message.role.Tool? && message.tag.Some? {
      RetainedHeading(message.tag.value);
    }
  }

  lemma RetainedHeading(tag: string)
    ensures "<retained tag=\"" + tag + "\">Kept verbatim across compaction: the latest " + "tool"
            + " message with this tag.</retained>"
            == "<retained tag=\"" + tag + "\">Kept verbatim across compaction: the latest "
            + "tool message with this tag.</retained>"
  {
    assert "tool" + " message with this tag.</retained>" == "tool message with this tag.</retained>";
  }

  /** The index of the last compaction row, -1 when there is none. */
  function LastCompaction(rows: seq<Row>): (at: int)
    ensures -1 <= at < |rows|
    ensures at >= 0 ==> rows[at].message.kind.Compaction?
    ensures forall k :: at < k < |rows| ==> rows[k].message.kind.Conversation?
  {
    if rows == [] then -1
    else if rows[|rows| - 1].message.kind.Compaction? then |rows| - 1
    else LastCompaction(rows[..|rows| - 1])
  }

  // ---------- The view, as a fold over the rows ----------

  /** How row `message` is shown, `before` the compaction row or not, after `calls` were shown. */
  function Shown(message: Message, before: bool, calls: set<string>): Message {
    if before && message.role.Tool? && (message.toolCallId.None? || message.toolCallId.value !in calls)
    then Retained(message)
    else message
  }

  datatype Rendered = Rendered(messages: seq<Message>, ids: seq<Option<MessageId>>, calls: set<string>)

  /** The conversation rows of `rows`, in order, those before position `at` as kept ones. */
  function Render(rows: seq<Row>, at: int): (r: Rendered)
    ensures |r.messages| == |r.ids| <= |rows|
  {
    if rows == [] then Rendered([], [], {})
    else
      var r := Render(rows[..|rows| - 1], at);
      var row := rows[|rows| - 1];
      if row.message.kind.Compaction? then r
      else
        var shown := Shown(row.message, |rows| - 1 < at, r.calls);
        Rendered(r.messages + [shown], r.ids + [row.id], r.calls + CallIds(shown))
  }

  function ViewOf(rows: seq<Row>): View {
    var at := LastCompaction(rows);
    if at < 0 then View(MessagesOf(rows), IdsOf(rows), 0, None, None)
    else
      var r := Render(rows, at);
      var block := rows[at].message.kind.block;
      View([SummaryMessage(block.summary)] + r.messages, [None] + r.ids,
           1 + |r.messages| - (|rows| - 1 - at), Some(block), rows[at].id)
  }

  method BuildView(rows: seq<Row>) returns (view: View)
    ensures view == ViewOf(rows)
  {
    var at := |rows| - 1;
    while at >= 0 && rows[at].message.kind.Conversation?
      invariant -1 <= at < |rows|
      invariant forall k :: at < k < |rows| ==> rows[k].message.kind.Conversation?
    {
      at := at - 1;
    }
    assert at == LastCompaction(rows);
    if at < 0 {
      return View(MessagesOf(rows), IdsOf(rows), 0, None, None);
    }
    var block := rows[at].message.kind.block;
    var messages, ids := [SummaryMessage(block.summary)], [None];
    var calls: set<string> := {};
    for position := 0 to |rows|
      invariant var r := Render(rows[..position], at);
        messages == [SummaryMessage(block.summary)] + r.messages && ids == [None] + r.ids && calls == r.calls
    {
      assert rows[..position + 1][..position] == rows[..position];
      var message := rows[position].message;
      if message.kind.Compaction? {
        continue;
      }
      if position < at && message.role.Tool?
         && (message.toolCallId.None? || message.toolCallId.value !in calls) {
        message := Retained(message);
      }
      calls := calls + CallIds(message);
      messages := messages + [message];
      ids := ids + [rows[position].id];
    }
    assert rows[..|rows|] == rows;
    view := View(messages, ids, |messages| - (|rows| - 1 - at), Some(block), rows[at].id);
  }

  /** Where row `k` lands among the rendered messages, and how it is shown there. */
  lemma {:induction false} RenderAt(rows: seq<Row>, at: int, k: nat)
    requires k < |rows| && rows[k].message.kind.Conversation?
    ensures var p, r := Render(rows[..k], at), Render(rows, at);
      && p.messages <= r.messages && p.ids <= r.ids && p.calls <= r.calls
      && |p.messages| < |r.messages|
      && r.ids[|p.ids|] == rows[k].id
      && r.messages[|p.messages|] == Shown(rows[k].message, k < at, p.calls)
  {
    var n := |rows| - 1;
    if k < n {
      assert rows[..n][..k] == rows[..k];
      RenderAt(rows[..n], at, k);
    }
  }

  /** Every rendered message comes from a row. */
  lemma {:induction false} RenderFrom(rows: seq<Row>, at: int, i: nat) returns (k: nat)
    requires i < |Render(rows, at).messages|
    ensures k < |rows| && rows[k].message.kind.Conversation? && |Render(rows[..k], at).messages| == i
  {
    var n := |rows| - 1;
    if i < |Render(rows[..n], at).messages| {
      k := RenderFrom(rows[..n], at, i);
      assert rows[..n][..k] == rows[..k];
    } else {
      k := n;
    }
  }

  /** Rendering keeps the order of the rows. */
  lemma {:induction false} RenderOrder(rows: seq<Row>, at: int, j: nat, k: nat)
    requires j < k <= |rows| && rows[j].message.kind.Conversation?
    ensures |Render(rows[..j], at).messages| < |Render(rows[..k], at).messages|
  {
    assert rows[..k][..j] == rows[..j];
    RenderAt(rows[..k], at, j);
  }

  /** The calls a fold has seen are exactly the calls of the messages it shows. */
  lemma {:induction false} RenderCalls(rows: seq<Row>, at: int, call: string)
    ensures call in Render(rows, at).calls
      <==> exists i :: 0 <= i < |Render(rows, at).messages| && call in CallIds(Render(rows, at).messages[i])
  {
    if rows != [] {
      var n := |rows| - 1;
      var p, r := Render(rows[..n], at), Render(rows, at);
      RenderCalls(rows[..n], at, call);
      if rows[n].message.kind.Conversation? {
        assert r.messages[|r.messages| - 1] == Shown(rows[n].message, n < at, p.calls);
        assert forall i :: 0 <= i < |p.messages| ==> r.messages[i] == p.messages[i];
      }
    }
  }

  // ---------- Kept tags ----------

  ghost predicate Tagged(row: Row, tag: string) {
    row.message.kind.Conversation? && row.id.Some? && row.message.tag == Some(tag)
  }

  /** The latest message id of each tag, as the dictionary comprehension builds it. */
  function KeptByTag(rows: seq<Row>, tags: seq<string>): map<string, MessageId> {
    if rows == [] then map[]
    else
      var rest := KeptByTag(rows[..|rows| - 1], tags);
      var row := rows[|rows| - 1];
      if row.message.tag.Some? && row.message.tag.value in tags && row.message.kind.Conversation? && row.id.Some?
      then rest[row.message.tag.value := row.id.value]
      else rest
  }

  function KeptIds(rows: seq<Row>, tags: seq<string>): set<MessageId> {
    KeptByTag(rows, tags).Values
  }

  ghost predicate LatestTagged(rows: seq<Row>, tag: string, k: nat, id: MessageId)
    requires k < |rows|
  {
    Tagged(rows[k], tag) && rows[k].id == Some(id) && forall j :: k < j < |rows| ==> !Tagged(rows[j], tag)
  }

  /** Exactly the latest message of each kept tag. */
  lemma {:induction false} KeptIsLatest(rows: seq<Row>, tags: seq<string>, tag: string)
    ensures var m := KeptByTag(rows, tags);
      && (tag in m <==> tag in tags && exists k :: 0 <= k < |rows| && Tagged(rows[k], tag))
      && (tag in m ==> exists k :: 0 <= k < |rows| && LatestTagged(rows, tag, k, m[tag]))
  {
    if rows != [] {
      var n := |rows| - 1;
      var init := rows[..n];
      KeptIsLatest(init, tags, tag);
      assert forall k :: 0 <= k < n ==> init[k] == rows[k];
      var m := KeptByTag(rows, tags);
      if Tagged(rows[n], tag) {
        assert tag in m ==> LatestTagged(rows, tag, n, m[tag]);
      } else if tag in m {
        var k :| 0 <= k < |init| && LatestTagged(init, tag, k, m[tag]);
        assert LatestTagged(rows, tag, k, m[tag]);
      }
    }
  }

  // ---------- The pending part of a view ----------

  /** After the last assistant message at or past `floor`, or at it when it made tool calls. */
  function PendingStart(view: seq<Message>, floor: nat): (start: nat)
    ensures start == floor || floor <= start <= |view|
    decreases |view|
  {
    if |view| <= floor then floor
    else if view[|view| - 1].role.Assistant? then
      if view[|view| - 1].toolCalls != [] then |view| - 1 else |view|
    else PendingStart(view[..|view| - 1], floor)
  }

  method FindPendingStart(view: seq<Message>, floor: nat) returns (start: nat)
    ensures start == PendingStart(view, floor)
  {
    var index := |view| - 1;
    assert view[..index + 1] == view;
    while index >= floor
      invariant index < |view| && index >= -1
      invariant index + 1 <= |view|
      invariant |view| >= floor ==> index + 1 >= floor
      invariant PendingStart(view, floor) == PendingStart(view[..index + 1], floor)
      decreases index
    {
      assert view[..index + 1][..index] == view[..index];
      var message := view[index];
      if message.role.Assistant? {
        return if message.toolCalls != [] then index else index + 1;
      }
      index := index - 1;
    }
    start := floor;
  }

  /** No call is split from its results: the last assistant message that made calls starts
      the pending part. */
  lemma {:induction false} PendingStartAtCall(view: seq<Message>, floor: nat, index: nat)
    requires floor <= index < |view| && view[index].role.Assistant?
    requires forall k :: index < k < |view| ==> !view[k].role.Assistant?
    ensures PendingStart(view, floor) == if view[index].toolCalls != [] then index else index + 1
  {
    if index < |view| - 1 {
      PendingStartAtCall(view[..|view| - 1], floor, index);
    }
  }

  // ---------- Measuring a request ----------

  function IsImage(block: Block): bool {
    || block.InlineImageBlock?
    || block.UrlImageBlock?
    || (block.AssetBlock? && "image/" <= block.mime)
  }

  function TextLength(blocks: seq<Block>): nat {
    if blocks == [] then 0
    else TextLength(blocks[..|blocks| - 1])
         + (if blocks[|blocks| - 1].TextBlock? then |blocks[|blocks| - 1].text| else 0)
  }

  function CallLength(calls: seq<ToolCall>): nat {
    if calls == [] then 0
    else CallLength(calls[..|calls| - 1]) + |calls[|calls| - 1].name| + |calls[|calls| - 1].arguments|
  }

  function Characters(messages: seq<Message>): nat {
    if messages == [] then 0
    else
      var message := messages[|messages| - 1];
      var text := match message.content
        case NoContent => 0
        case Plain(text) => |text|
        case Blocks(blocks) => TextLength(blocks);
      Characters(messages[..|messages| - 1]) + text + message.unseen + CallLength(message.toolCalls)
  }

  function EstimateTokens(messages: seq<Message>, system: string): nat {
    (|system| + Characters(messages) + CHARS_PER_TOKEN - 1) / CHARS_PER_TOKEN
  }

  /** The last reported usage at or past `usageFrom` and an estimate of what follows it. */
  function MeasureTokens(system: string, view: seq<Message>, usageFrom: int, upTo: nat): nat
    requires upTo <= |view|
  {
    if upTo == 0 || upTo <= usageFrom then EstimateTokens(view, system)
    else
      var message := view[upTo - 1];
      if message.role.Assistant? && message.usage.Some?
      then message.usage.value.0 + message.usage.value.1 + EstimateTokens(view[upTo..], "")
      else MeasureTokens(system, view, usageFrom, upTo - 1)
  }
}
