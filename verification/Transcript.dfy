/** A thread's transcript as its store keeps it, what is read from it for the model, and the
    summary that is written of it and stored into it. */
module Transcript {
  import opened Messages
  import opened Views

  ghost predicate Increasing(ids: seq<Option<MessageId>>) {
    && (forall k :: 0 <= k < |ids| ==> ids[k].Some?)
    && (forall j, k :: 0 <= j < k < |ids| ==> ids[j].value < ids[k].value)
  }

  /** Ids come from one counter, so they rise along a transcript. */
  ghost predicate Stored(rows: seq<Row>) {
    && (forall k :: 0 <= k < |rows| ==> rows[k].id.Some?)
    && (forall j, k :: 0 <= j < k < |rows| ==> rows[j].id.value < rows[k].id.value)
  }

  /** The rows whose id is in `ids`, in order. */
  function Keep(rows: seq<Row>, ids: set<MessageId>): (r: seq<Row>)
    ensures |r| <= |rows|
  {
    if rows == [] then []
    else
      var rest := Keep(rows[..|rows| - 1], ids);
      var row := rows[|rows| - 1];
      if row.id.Some? && row.id.value in ids then rest + [row] else rest
  }

  function ToSet(ids: seq<MessageId>): set<MessageId> {
    set k | 0 <= k < |ids| :: ids[k]
  }

  /** The latest compaction row and every row after it, and the rows it keeps. */
  function ListForModel(rows: seq<Row>): seq<Row> {
    var at := LastCompaction(rows);
    if at < 0 then rows
    else Keep(rows[..at], ToSet(rows[at].message.kind.block.kept)) + rows[at..]
  }

  function Latest(rows: seq<Row>): Option<MessageId> {
    var at := LastCompaction(rows);
    if at < 0 then None else rows[at].id
  }

  function MessageIds(rows: seq<Row>): set<MessageId> {
    set k | 0 <= k < |rows| && rows[k].message.kind.Conversation? && rows[k].id.Some? :: rows[k].id.value
  }

  /** The stored messages the model sees. */
  function Visible(rows: seq<Row>): set<MessageId> {
    MessageIds(ListForModel(rows))
  }

  function ModelView(rows: seq<Row>): View {
    ViewOf(ListForModel(rows))
  }

  function SomeIds(ids: seq<Option<MessageId>>): set<MessageId> {
    set k | 0 <= k < |ids| && ids[k].Some? :: ids[k].value
  }

  // ---------- Keep ----------

  lemma {:induction false} KeepHas(rows: seq<Row>, ids: set<MessageId>, row: Row)
    ensures row in Keep(rows, ids) <==> row in rows && row.id.Some? && row.id.value in ids
  {
    if rows != [] {
      KeepHas(rows[..|rows| - 1], ids, row);
      assert rows == rows[..|rows| - 1] + [rows[|rows| - 1]];
    }
  }

  lemma {:induction false} KeepStored(rows: seq<Row>, ids: set<MessageId>)
    requires Stored(rows)
    ensures Stored(Keep(rows, ids))
  {
    if rows != [] {
      var n := |rows| - 1;
      KeepStored(rows[..n], ids);
      var rest := Keep(rows[..n], ids);
      forall k | 0 <= k < |rest| ensures rest[k].id.value < rows[n].id.value {
        KeepHas(rows[..n], ids, rest[k]);
        var j :| 0 <= j < n && rows[..n][j] == rest[k];
      }
    }
  }

  lemma {:induction false} KeepSame(rows: seq<Row>, a: set<MessageId>, b: set<MessageId>)
    requires forall k :: 0 <= k < |rows| && rows[k].id.Some? ==> (rows[k].id.value in a <==> rows[k].id.value in b)
    ensures Keep(rows, a) == Keep(rows, b)
  {
    if rows != [] {
      KeepSame(rows[..|rows| - 1], a, b);
    }
  }

  lemma StoredJoin(head: seq<Row>, tail: seq<Row>, first: MessageId)
    requires Stored(head) && Stored(tail)
    requires forall j :: 0 <= j < |head| ==> head[j].id.value < first
    requires forall k :: 0 <= k < |tail| ==> first <= tail[k].id.value
    ensures Stored(head + tail)
  {
  }

  lemma StoredTail(rows: seq<Row>, at: nat)
    requires Stored(rows) && at < |rows|
    ensures Stored(rows[..at]) && Stored(rows[at..])
    ensures forall k :: 0 <= k < |rows[at..]| ==> rows[at].id.value <= rows[at..][k].id.value
  {
  }

  lemma ListForModelStored(rows: seq<Row>)
    requires Stored(rows)
    ensures Stored(ListForModel(rows))
  {
    var at := LastCompaction(rows);
    if at >= 0 {
      var kept := ToSet(rows[at].message.kind.block.kept);
      var head := Keep(rows[..at], kept);
      StoredTail(rows, at);
      KeepStored(rows[..at], kept);
      forall j | 0 <= j < |head| ensures head[j].id.value < rows[at].id.value {
        KeepHas(rows[..at], kept, head[j]);
        var i :| 0 <= i < at && rows[..at][i] == head[j];
      }
      StoredJoin(head, rows[at..], rows[at].id.value);
    }
  }

  /** What a stored row must be to reach the model's rows. */
  ghost predicate Seen(rows: seq<Row>, k: nat)
    requires k < |rows|
  {
    var at := LastCompaction(rows);
    at < 0 || k >= at || (rows[k].id.Some? && rows[k].id.value in rows[at].message.kind.block.kept)
  }

  lemma ListForModelHas(rows: seq<Row>, k: nat)
    requires Stored(rows) && k < |rows|
    ensures rows[k] in ListForModel(rows) <==> Seen(rows, k)
  {
    var at := LastCompaction(rows);
    if at >= 0 {
      var kept := rows[at].message.kind.block.kept;
      KeepHas(rows[..at], ToSet(kept), rows[k]);
      assert k >= at ==> rows[k] == rows[at..][k - at];
      assert k < at ==> rows[k] == rows[..at][k];
    }
  }

  lemma ListForModelFrom(rows: seq<Row>, row: Row)
    requires row in ListForModel(rows)
    ensures row in rows
  {
    var at := LastCompaction(rows);
    if at >= 0 {
      KeepHas(rows[..at], ToSet(rows[at].message.kind.block.kept), row);
      assert row in rows[..at] ==> row in rows;
      assert row in rows[at..] ==> row in rows;
    }
  }

  /** Whether a conversation row is visible, by its own place. */
  lemma VisibleAt(rows: seq<Row>, k: nat)
    requires Stored(rows) && k < |rows| && rows[k].message.kind.Conversation?
    ensures rows[k].id.value in Visible(rows) <==> Seen(rows, k)
  {
    var list := ListForModel(rows);
    ListForModelHas(rows, k);
    if rows[k] in list {
      var j :| 0 <= j < |list| && list[j] == rows[k];
      assert list[j].id.value in Visible(rows);
    }
    if rows[k].id.value in Visible(rows) {
      var j :| 0 <= j < |list| && list[j].message.kind.Conversation? && list[j].id.Some?
          && list[j].id.value == rows[k].id.value;
      ListForModelFrom(rows, list[j]);
      var i :| 0 <= i < |rows| && rows[i] == list[j];
      assert i == k;
    }
  }

  lemma VisibleStored(rows: seq<Row>)
    ensures Visible(rows) <= MessageIds(rows)
  {
    var list := ListForModel(rows);
    forall id | id in Visible(rows) ensures id in MessageIds(rows) {
      var j :| 0 <= j < |list| && list[j].message.kind.Conversation? && list[j].id.Some? && list[j].id.value == id;
      ListForModelFrom(rows, list[j]);
      var i :| 0 <= i < |rows| && rows[i] == list[j];
    }
  }

  // ---------- The ids of a view ----------

  lemma RenderIds(rows: seq<Row>, at: int)
    requires Stored(rows)
    ensures Increasing(Render(rows, at).ids)
    ensures SomeIds(Render(rows, at).ids) == MessageIds(rows)
  {
    var ids := Render(rows, at).ids;
    forall i | 0 <= i < |ids| ensures ids[i].Some? && ids[i].value in MessageIds(rows) {
      var k := RenderFrom(rows, at, i);
      RenderAt(rows, at, k);
    }
    forall i, j | 0 <= i < j < |ids| ensures ids[i].value < ids[j].value {
      var k := RenderFrom(rows, at, i);
      var l := RenderFrom(rows, at, j);
      RenderAt(rows, at, k);
      RenderAt(rows, at, l);
      if l < k {
        RenderOrder(rows, at, l, k);
      }
    }
    forall k | 0 <= k < |rows| && rows[k].message.kind.Conversation?
      ensures rows[k].id.value in SomeIds(ids)
    {
      RenderAt(rows, at, k);
      var i := |Render(rows[..k], at).ids|;
      assert ids[i] == rows[k].id;
    }
  }

  /** A view's ids: the summary's `None` first when there is one, then rising message ids. */
  ghost predicate Rising(ids: seq<Option<MessageId>>) {
    && (forall k :: 1 <= k < |ids| ==> ids[k].Some?)
    && (forall j, k :: 0 <= j < k < |ids| && ids[j].Some? ==> ids[j].value < ids[k].value)
  }

  lemma ViewIds(rows: seq<Row>)
    requires Stored(rows)
    ensures var view := ViewOf(rows);
      && |view.ids| == |view.messages|
      && Rising(view.ids)
      && SomeIds(view.ids) == MessageIds(rows)
      && (view.compaction.Some? <==> LastCompaction(rows) >= 0)
      && (|view.ids| > 0 ==> (view.ids[0].None? <==> view.compaction.Some?))
      && (view.compaction.Some? ==> |view.ids| > 0)
  {
    var at := LastCompaction(rows);
    var view := ViewOf(rows);
    if at < 0 {
      assert forall k :: 0 <= k < |rows| ==> view.ids[k] == rows[k].id;
    } else {
      RenderIds(rows, at);
      var ids := Render(rows, at).ids;
      assert forall k :: 1 <= k < |view.ids| ==> view.ids[k] == ids[k - 1];
      assert SomeIds(view.ids) == SomeIds(ids) by {
        forall id | id in SomeIds(ids) ensures id in SomeIds(view.ids) {
          var k :| 0 <= k < |ids| && ids[k].Some? && ids[k].value == id;
          assert view.ids[k + 1] == ids[k];
        }
      }
    }
  }

  /** The messages up to a boundary are the visible ones with no later id. */
  lemma ViewPrefix(rows: seq<Row>, cut: nat)
    requires Stored(rows)
    requires 1 <= cut <= |ViewOf(rows).ids| && ViewOf(rows).ids[cut - 1].Some?
    ensures var ids := ViewOf(rows).ids;
      SomeIds(ids[..cut]) == set id | id in MessageIds(rows) && id <= ids[cut - 1].value
  {
    var ids := ViewOf(rows).ids;
    ViewIds(rows);
    forall id | id in MessageIds(rows) && id <= ids[cut - 1].value ensures id in SomeIds(ids[..cut]) {
      assert id in SomeIds(ids);
      var k :| 0 <= k < |ids| && ids[k].Some? && ids[k].value == id;
      assert k < cut;
      assert ids[..cut][k] == ids[k];
    }
    forall id | id in SomeIds(ids[..cut]) ensures id in MessageIds(rows) && id <= ids[cut - 1].value {
      var k :| 0 <= k < cut && ids[..cut][k].Some? && ids[..cut][k].value == id;
      assert ids[k] == Some(id);
      assert id in SomeIds(ids);
    }
  }

  // ---------- Writing a summary ----------

  datatype Trigger = Trigger(
    reason: string, tokens: int, images: int, through: Option<MessageId>, carried: seq<MessageId>)

  datatype Summary = Summary(text: string, through: MessageId, base: Option<MessageId>, trigger: Trigger)

  function IndexOf<T(==)>(s: seq<T>, x: T): (index: nat)
    ensures index <= |s|
    ensures index < |s| ==> s[index] == x
    ensures forall k :: 0 <= k < index ==> s[k] != x
    ensures index == |s| <==> x !in s
  {
    if s == [] then 0
    else if s[0] == x then 0
    else
      var index := IndexOf(s[1..], x);
      assert s == [s[0]] + s[1..];
      1 + index
  }

  datatype Failure = BoundaryLeft | NothingToSummarize

  /** How much of the view a summary replaces. */
  function Cut(view: View, trigger: Trigger): (r: Result<nat, Failure>)
    ensures r.Ok? ==> r.value <= |view.ids| || r.value == |view.messages|
  {
    if trigger.through.Some? then
      if trigger.through in view.ids then Ok(IndexOf(view.ids, trigger.through) + 1) else Err(BoundaryLeft)
    else if trigger.carried != [] then
      if Some(trigger.carried[0]) in view.ids then Ok(IndexOf(view.ids, Some(trigger.carried[0])))
          else Err(BoundaryLeft)
    else Ok(|view.messages|)
  }

  /** A summary of `rows` for `trigger`, and the ids of the messages it was written from.
      A cut at 0 reads the last id, as an index of -1 does. */
  function Summarize(rows: seq<Row>, trigger: Trigger, text: string): Result<(Summary, set<MessageId>), Failure> {
    var view := ModelView(rows);
    match Cut(view, trigger)
    case Err(error) => Err(error)
    case Ok(cut) =>
      if |view.ids| == 0 || cut > |view.ids| then Err(NothingToSummarize)
      else
        var through := if cut == 0 then view.ids[|view.ids| - 1] else view.ids[cut - 1];
        if through.None? then Err(NothingToSummarize)
        else Ok((Summary(text, through.value, view.compactionId, trigger), SomeIds(view.ids[..cut])))
  }

  // ---------- Storing a summary ----------

  datatype Settings = Settings(keep: seq<string>, system: string)

  /** The ids a stored summary keeps: the latest of each kept tag before the boundary, and
      every visible message after it. */
  function Chosen(rows: seq<Row>, before: nat, keep: seq<string>): set<MessageId>
    requires before <= |rows|
  {
    KeptIds(rows[..before], keep)
    + set k | before <= k < |rows| && rows[k].id.Some? && rows[k].id.value in Visible(rows) :: rows[k].id.value
  }

  datatype Storing = Stale | Unknown | Block(block: CompactionBlock)

  function Before(rows: seq<Row>, through: MessageId): (before: nat)
    requires Some(through) in IdsOf(rows)
    ensures 0 < before <= |rows| && rows[before - 1].id == Some(through)
  {
    IndexOf(IdsOf(rows), Some(through)) + 1
  }

  function KeptList(rows: seq<Row>): seq<MessageId>
    requires forall k :: 0 <= k < |rows| ==> rows[k].id.Some?
  {
    seq(|rows|, k requires 0 <= k < |rows| => rows[k].id.value)
  }

  lemma KeepHaveIds(rows: seq<Row>, ids: set<MessageId>)
    ensures forall k :: 0 <= k < |Keep(rows, ids)| ==> Keep(rows, ids)[k].id.Some?
  {
    forall k | 0 <= k < |Keep(rows, ids)| ensures Keep(rows, ids)[k].id.Some? {
      KeepHas(rows, ids, Keep(rows, ids)[k]);
    }
  }

  /** The compaction block `summary` is stored as, `images` counting a prepared request. */
  function StoredAs(rows: seq<Row>, summary: Summary, settings: Settings, images: seq<Message> -> int): Storing {
    if Latest(ListForModel(rows)) != summary.base then Stale
    else if Some(summary.through) !in IdsOf(rows) then Unknown
    else
      var chosen := Chosen(rows, Before(rows, summary.through), settings.keep);
      KeepHaveIds(rows, chosen);
      var kept := Keep(rows, chosen);
      var block := CompactionBlock(summary.text, KeptList(kept), summary.trigger.reason,
                                   summary.trigger.tokens, summary.trigger.images, 0, 0);
      var drafted := ViewOf(kept + [Row(None, CompactionMessage(block))]);
      Block(block.(tokensAfter := MeasureTokens(settings.system, drafted.messages, drafted.usageFrom,
          |drafted.messages|),
                   imagesAfter := images(drafted.messages)))
  }

  function WithSummary(rows: seq<Row>, id: MessageId, block: CompactionBlock): seq<Row> {
    rows + [Row(Some(id), CompactionMessage(block))]
  }

  /** The kept rows and the new row are all the model's rows are made of. */
  lemma ListAfterStore(rows: seq<Row>, id: MessageId, summary: Summary, settings: Settings, images: seq<Message> -> int)
    requires StoredAs(rows, summary, settings, images).Block?
    ensures var block := StoredAs(rows, summary, settings, images).block;
      ListForModel(WithSummary(rows, id, block))
      == Keep(rows, Chosen(rows, Before(rows, summary.through), settings.keep)) + [Row(Some(id),
          CompactionMessage(block))]
  {
    var block := StoredAs(rows, summary, settings, images).block;
    var chosen := Chosen(rows, Before(rows, summary.through), settings.keep);
    var kept := Keep(rows, chosen);
    KeepHaveIds(rows, chosen);
    var after := WithSummary(rows, id, block);
    assert LastCompaction(after) == |rows|;
    assert after[..|rows|] == rows;
    forall k | 0 <= k < |rows| && rows[k].id.Some?
      ensures rows[k].id.value in chosen <==> rows[k].id.value in ToSet(block.kept)
    {
      KeepHas(rows, chosen, rows[k]);
      if rows[k].id.value in chosen {
        var j :| 0 <= j < |kept| && kept[j] == rows[k];
        assert block.kept[j] == rows[k].id.value;
      }
      if rows[k].id.value in ToSet(block.kept) {
        var j :| 0 <= j < |block.kept| && block.kept[j] == rows[k].id.value;
        KeepHas(rows, chosen, kept[j]);
      }
    }
    KeepSame(rows, chosen, ToSet(block.kept));
  }

  /** The view measured while a summary is stored is the view the next turn sees: `tokensAfter`
      measures that turn's messages, and `imagesAfter` counts their images as prepared without a
      limit (a turn that drops its oldest images sends fewer). */
  lemma MeasuredViewIsNextView(rows: seq<Row>, id: MessageId, summary: Summary, settings: Settings,
        images: seq<Message> -> int)
    requires StoredAs(rows, summary, settings, images).Block?
    ensures var block := StoredAs(rows, summary, settings, images).block;
      var next := ModelView(WithSummary(rows, id, block));
      && next.compaction == Some(block)
      && block.tokensAfter == MeasureTokens(settings.system, next.messages, next.usageFrom, |next.messages|)
      && block.imagesAfter == images(next.messages)
  {
    var block := StoredAs(rows, summary, settings, images).block;
    ListAfterStore(rows, id, summary, settings, images);
    var kept := Keep(rows, Chosen(rows, Before(rows, summary.through), settings.keep));
    var row := Row(Some(id), CompactionMessage(block));
    var draft := Row(None, CompactionMessage(block.(tokensAfter := 0, imagesAfter := 0)));
    assert LastCompaction(kept + [row]) == |kept| == LastCompaction(kept + [draft]);
    assert (kept + [row])[..|kept|] == kept == (kept + [draft])[..|kept|];
  }

  // ---------- What storing changes ----------

  lemma KeptAreStored(rows: seq<Row>, keep: seq<string>)
    ensures forall id :: id in KeptIds(rows, keep) ==>
              exists k :: 0 <= k < |rows| && rows[k].id == Some(id) && rows[k].message.kind.Conversation?
                  && rows[k].message.tag.Some?
  {
    var m := KeptByTag(rows, keep);
    forall id | id in KeptIds(rows, keep)
      ensures exists k ::
        0 <= k < |rows| && rows[k].id == Some(id) && rows[k].message.kind.Conversation? && rows[k].message.tag.Some?
    {
      var tag :| tag in m && m[tag] == id;
      KeptIsLatest(rows, keep, tag);
      var k :| 0 <= k < |rows| && Tagged(rows[k], tag) && rows[k].id == Some(m[tag]);
    }
  }

  lemma MessageIdsKeep(rows: seq<Row>, ids: set<MessageId>)
    requires Stored(rows)
    ensures MessageIds(Keep(rows, ids)) == MessageIds(rows) * ids
  {
    var kept := Keep(rows, ids);
    forall id | id in MessageIds(kept) ensures id in MessageIds(rows) * ids {
      var k :| 0 <= k < |kept| && kept[k].message.kind.Conversation? && kept[k].id == Some(id);
      KeepHas(rows, ids, kept[k]);
      var j :| 0 <= j < |rows| && rows[j] == kept[k];
    }
    forall id | id in MessageIds(rows) * ids ensures id in MessageIds(kept) {
      var k :| 0 <= k < |rows| && rows[k].message.kind.Conversation? && rows[k].id == Some(id);
      KeepHas(rows, ids, rows[k]);
      var j :| 0 <= j < |kept| && kept[j] == rows[k];
    }
  }

  /** Positions past the boundary are the ids past it. */
  lemma ChosenIs(rows: seq<Row>, through: MessageId, keep: seq<string>)
    requires Stored(rows) && Some(through) in IdsOf(rows)
    ensures Chosen(rows, Before(rows, through), keep) * MessageIds(rows)
            == KeptIds(rows[..Before(rows, through)], keep) + set v | v in Visible(rows) && v > through
  {
    var before := Before(rows, through);
    VisibleStored(rows);
    KeptAreStored(rows[..before], keep);
    forall v | v in KeptIds(rows[..before], keep) ensures v in MessageIds(rows) {
      var k :| 0 <= k < before && rows[..before][k].id == Some(v) && rows[..before][k].message.kind.Conversation?;
      assert rows[k].id == Some(v);
    }
    forall v | v in Visible(rows) && v > through ensures v in Chosen(rows, before, keep) {
      var k :| 0 <= k < |rows| && rows[k].message.kind.Conversation? && rows[k].id == Some(v);
      assert k >= before;
    }
  }

  /** A stored summary shows exactly the kept tags before its boundary and what was visible
      after it: nothing visible after the boundary is removed, and nothing else comes back. */
  lemma VisibleAfterStore(rows: seq<Row>, id: MessageId, summary: Summary, settings: Settings,
        images: seq<Message> -> int)
    requires Stored(rows)
    requires StoredAs(rows, summary, settings, images).Block?
    ensures var after := WithSummary(rows, id, StoredAs(rows, summary, settings, images).block);
      && Latest(after) == Some(id)
      && Visible(after) == KeptIds(rows[..Before(rows, summary.through)], settings.keep)
                           + set v | v in Visible(rows) && v > summary.through
  {
    var row := Row(Some(id), CompactionMessage(StoredAs(rows, summary, settings, images).block));
    var chosen := Chosen(rows, Before(rows, summary.through), settings.keep);
    ListAfterStore(rows, id, summary, settings, images);
    assert LastCompaction(rows + [row]) == |rows|;
    MessageIdsAppend(Keep(rows, chosen), row);
    MessageIdsKeep(rows, chosen);
    ChosenIs(rows, summary.through, settings.keep);
  }

  lemma VisibleAfterAppend(rows: seq<Row>, row: Row)
    requires Stored(rows + [row]) && row.message.kind.Conversation?
    ensures Latest(rows + [row]) == Latest(rows)
    ensures Visible(rows + [row]) == Visible(rows) + {row.id.value}
    ensures MessageIds(rows + [row]) == MessageIds(rows) + {row.id.value}
  {
    var after := rows + [row];
    var at := LastCompaction(rows);
    assert after[..|rows|] == rows && after[|rows|] == row;
    assert LastCompaction(after) == at;
    var list := ListForModel(rows);
    if at >= 0 {
      assert after[..at] == rows[..at] && after[at..] == rows[at..] + [row];
    }
    assert ListForModel(after) == list + [row];
    MessageIdsAppend(list, row);
    MessageIdsAppend(rows, row);
  }

  lemma MessageIdsAppend(rows: seq<Row>, row: Row)
    requires row.id.Some?
    ensures MessageIds(rows + [row]) == MessageIds(rows) + if row.message.kind.Conversation? then {row.id.value} else {}
  {
    var after := rows + [row];
    forall id | id in MessageIds(rows) ensures id in MessageIds(after) {
      var k :| 0 <= k < |rows| && rows[k].message.kind.Conversation? && rows[k].id.Some? && rows[k].id.value == id;
      assert after[k] == rows[k];
    }
    assert after[|rows|] == row;
  }
}
