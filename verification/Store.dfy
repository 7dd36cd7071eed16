/** The message store: every thread's transcript, appended to in place, and the activity that
    stores a summary into it. */
module Store {
  import opened Messages
  import opened Views
  import opened Transcript
  import opened CompactionRuns

  datatype ThreadKey = ThreadKey(agentId: string, threadId: string)

  /** What reading the first `k` rows keeps: all from `start` on, and those of `kept` before it. */
  function ReadUpTo(rows: seq<Row>, start: nat, kept: seq<MessageId>, k: nat): seq<Row>
    requires start < |rows| && k <= |rows|
  {
    if k <= start then Keep(rows[..k], ToSet(kept)) else Keep(rows[..start], ToSet(kept)) + rows[start..k]
  }

  lemma ReadOneMore(rows: seq<Row>, start: nat, kept: seq<MessageId>, k: nat)
    requires start < |rows| && k < |rows|
    ensures ReadUpTo(rows, start, kept, k + 1)
            == ReadUpTo(rows, start, kept, k)
               + if k >= start || (rows[k].id.Some? && rows[k].id.value in kept) then [rows[k]] else []
    ensures rows[start..|rows|] == rows[start..]
  {
    assert rows[..k + 1][..k] == rows[..k];
    if k > start {
      assert rows[start..k + 1] == rows[start..k] + [rows[k]];
    }
  }

  class MessageStore {
    var messages: map<ThreadKey, seq<Row>>
    var counter: nat
    /** The turn that stored a message. */
    var turns: map<MessageId, string>

    /** One counter numbers every thread's rows. */
    ghost predicate Valid()
      reads this
    {
      forall key :: key in messages ==> Numbered(messages[key], counter)
    }

    function Rows(key: ThreadKey): seq<Row>
      reads this
    {
      if key in messages then messages[key] else []
    }

    constructor ()
      ensures Valid() && messages == map[] && counter == 0 && turns == map[]
    {
      messages, counter, turns := map[], 0, map[];
    }

    method Append(key: ThreadKey, message: Message, turn: Option<string>) returns (id: MessageId)
      requires Valid()
      modifies this
      ensures Valid() && id == counter == old(counter) + 1
      ensures messages == old(messages)[key := old(Rows(key)) + [Row(Some(id), message)]]
      ensures turns == if turn.Some? then old(turns)[id := turn.value] else old(turns)
    {
      counter := counter + 1;
      id := counter;
      if turn.Some? {
        turns := turns[id := turn.value];
      }
      messages := messages[key := Rows(key) + [Row(Some(id), message)]];
    }

    /** A result is stored once: a second one for the same call changes nothing. */
    method AppendToolResult(key: ThreadKey, call: string, name: string, result: Content)
      requires Valid()
      modifies this
      ensures Valid()
      ensures Answered(old(Rows(key)), call) ==> unchanged(this)
      ensures !Answered(old(Rows(key)), call) ==>
                counter == old(counter) + 1 && turns == old(turns)
                && messages == old(messages)[
                     key := old(Rows(key)) + [Row(Some(counter), Message(Tool, result, [], Some(call), Some(name),
                                                                         Some("tool:" + name), Conversation, None, 0))]]
    {
      var rows := Rows(key);
      for k := 0 to |rows|
        invariant !Answered(rows[..k], call)
      {
        if rows[k].message.role.Tool? && rows[k].message.toolCallId == Some(call) {
          assert Answered(rows, call);
          return;
        }
        assert rows[..k + 1] == rows[..k] + [rows[k]];
      }
      assert rows[..|rows|] == rows;
      var _ := Append(key, ToolMessage(call, name, result), None);
    }

    /** The rows a turn stored, in transcript order. */
    method ListForTurn(key: ThreadKey, turn: string) returns (listed: seq<Row>)
      ensures listed == Keep(Rows(key), set id | id in turns && turns[id] == turn)
    {
      var rows := Rows(key);
      ghost var ids := set id | id in turns && turns[id] == turn;
      listed := [];
      for k := 0 to |rows|
        invariant listed == Keep(rows[..k], ids)
      {
        assert rows[..k + 1][..k] == rows[..k];
        var row := rows[k];
        if row.id.Some? && row.id.value in turns && turns[row.id.value] == turn {
          listed := listed + [row];
        }
      }
      assert rows[..|rows|] == rows;
    }

    /** The latest compaction row, every row after it and the rows it keeps. */
    method ReadForModel(key: ThreadKey) returns (listed: seq<Row>)
      ensures listed == ListForModel(Rows(key))
    {
      var rows := Rows(key);
      var start := LastCompaction(rows);
      if start < 0 {
        return rows;
      }
      var kept := rows[start].message.kind.block.kept;
      listed := [];
      ReadOneMore(rows, start, kept, 0);
      for k := 0 to |rows|
        invariant listed == ReadUpTo(rows, start, kept, k)
      {
        ReadOneMore(rows, start, kept, k);
        var row := rows[k];
        if k >= start || (row.id.Some? && row.id.value in kept) {
          listed := listed + [row];
        }
      }
    }
  }

  /** Store a written summary, unless the context was compacted since it started: its text as it was
      written, the figures it was triggered by, and the figures of the view it leaves. */
  method StoreSummary(store: MessageStore, key: ThreadKey, summary: Summary, settings: Settings,
        images: seq<Message> -> int)
    returns (outcome: Storing)
    requires store.Valid()
    modifies store
    ensures store.Valid()
    ensures outcome == StoredAs(old(store.Rows(key)), summary, settings, images)
    ensures outcome.Block? ==>
              outcome.block.summary == summary.text && outcome.block.reason == summary.trigger.reason
              && outcome.block.tokensBefore == summary.trigger.tokens
              && outcome.block.imagesBefore == summary.trigger.images
    ensures outcome.Block? ==>
              store.counter == old(store.counter) + 1
              && store.messages == old(store.messages)[
                   key := WithSummary(old(store.Rows(key)), store.counter, outcome.block)]
    ensures !outcome.Block? ==> unchanged(store)
  {
    hide Numbered, ListForModel, LastCompaction;
    var history := store.Rows(key);
    var rows := store.ReadForModel(key);
    var latest := LastCompaction(rows);
    if (if latest < 0 then None else rows[latest].id) != summary.base {
      return Stale;
    }
    var ids := IdsOf(history);
    if Some(summary.through) !in ids {
      return Unknown;
    }
    var before := IndexOf(ids, Some(summary.through)) + 1;
    var chosen := Chosen(history, before, settings.keep);
    var kept := Keep(history, chosen);
    KeepHaveIds(history, chosen);
    var block := CompactionBlock(summary.text, KeptList(kept), summary.trigger.reason,
                                 summary.trigger.tokens, summary.trigger.images, 0, 0);
    var drafted := BuildView(kept + [Row(None, CompactionMessage(block))]);
    block := block.(tokensAfter := MeasureTokens(settings.system, drafted.messages, drafted.usageFrom,
        |drafted.messages|),
                    imagesAfter := images(drafted.messages));
    var _ := store.Append(key, CompactionMessage(block), None);
    outcome := Block(block);
  }
}
