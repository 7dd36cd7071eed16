/** Rows and view messages: where a stored row is shown, and how calls and results pair up in
    a view. */
module Pairs {
  import opened Messages
  import opened Views
  import opened Transcript

  function Floor(view: View): nat {
    if view.compaction.Some? then 1 else 0
  }

  ghost predicate Calls(rows: seq<Row>, k: nat, call: string)
    requires k < |rows|
  {
    rows[k].message.role.Assistant? && call in CallIds(rows[k].message)
  }

  ghost predicate Answers(rows: seq<Row>, k: nat, call: string)
    requires k < |rows|
  {
    rows[k].message.role.Tool? && rows[k].message.toolCallId == Some(call)
  }

  /** A call with no stored result yet. */
  ghost predicate Open(rows: seq<Row>, k: nat, call: string)
    requires k < |rows|
  {
    Calls(rows, k, call) && forall j :: 0 <= j < |rows| ==> !Answers(rows, j, call)
  }

  /** What rows of each role look like, and which calls results answer. */
  ghost predicate Shaped(rows: seq<Row>) {
    && (forall k :: 0 <= k < |rows| && rows[k].message.toolCalls != [] ==> rows[k].message.role.Assistant?)
    && (forall k :: 0 <= k < |rows| && rows[k].message.role.Assistant? ==>
          rows[k].message.kind.Conversation? && rows[k].message.tag.None?)
    && (forall k :: 0 <= k < |rows| && rows[k].message.role.Tool? ==>
          rows[k].message.kind.Conversation? && rows[k].message.toolCallId.Some?)
    && (forall j, k, call ::
          0 <= j < |rows| && 0 <= k < |rows| && Calls(rows, j, call) && Calls(rows, k, call) ==> j == k)
    && (forall j, call :: 0 <= j < |rows| && Answers(rows, j, call) ==> exists k :: 0 <= k < j && Calls(rows, k, call))
    && (forall j, k, call :: 0 <= k < j < |rows| && Open(rows, k, call) ==> !rows[j].message.role.Assistant?)
  }

  ghost predicate Shows(rows: seq<Row>, k: nat)
    requires k < |rows|
  {
    rows[k].id.Some? && rows[k].id.value in Visible(rows)
  }

  /** What compaction must keep of a shaped transcript. */
  ghost predicate Paired(rows: seq<Row>) {
    && (forall k, call :: 0 <= k < |rows| && Open(rows, k, call) ==> Shows(rows, k))
    && (forall j, k, call | 0 <= j < |rows| && 0 <= k < |rows| && Calls(rows, k, call) && Answers(rows, j, call) ::
          Shows(rows, k) ==> Shows(rows, j))
    && (forall j, k, call | LastCompaction(rows) < j < |rows| && 0 <= k < |rows| && Calls(rows, k, call)
        && Answers(rows, j, call) ::
          Shows(rows, k))
  }

  // ---------- Rows and view positions ----------

  lemma {:induction false} RenderAll(rows: seq<Row>)
    requires forall k :: 0 <= k < |rows| ==> rows[k].message.kind.Conversation?
    ensures Render(rows, -1).messages == MessagesOf(rows) && Render(rows, -1).ids == IdsOf(rows)
  {
    if rows != [] {
      var n := |rows| - 1;
      RenderAll(rows[..n]);
      assert MessagesOf(rows) == MessagesOf(rows[..n]) + [rows[n].message];
      assert IdsOf(rows) == IdsOf(rows[..n]) + [rows[n].id];
    }
  }

  /** A view is its rows rendered, after the summary when there is one. */
  lemma ViewIsRendered(rows: seq<Row>)
    ensures var view, at := ViewOf(rows), LastCompaction(rows);
      && (at < 0 ==> Floor(view) == 0 && view.messages == Render(rows, at).messages && view.ids == Render(rows, at).ids)
      && (at >= 0 ==> Floor(view) == 1 && view.messages[1..] == Render(rows, at).messages
                      && view.ids[1..] == Render(rows, at).ids)
  {
    if LastCompaction(rows) < 0 {
      RenderAll(rows);
    }
  }

  /** Where conversation row `k` of `rows` is shown. */
  lemma ViewAt(rows: seq<Row>, k: nat) returns (i: nat)
    requires k < |rows| && rows[k].message.kind.Conversation?
    ensures var view, at := ViewOf(rows), LastCompaction(rows);
      && Floor(view) <= i < |view.messages| == |view.ids|
      && i == Floor(view) + |Render(rows[..k], at).messages|
      && view.ids[i] == rows[k].id
      && view.messages[i] == Shown(rows[k].message, k < at, Render(rows[..k], at).calls)
  {
    var view, at := ViewOf(rows), LastCompaction(rows);
    ViewIsRendered(rows);
    RenderAt(rows, at, k);
    i := Floor(view) + |Render(rows[..k], at).messages|;
    if at >= 0 {
      assert view.ids[i] == view.ids[1..][i - 1] && view.messages[i] == view.messages[1..][i - 1];
    }
  }

  lemma ViewFrom(rows: seq<Row>, i: nat) returns (k: nat)
    requires Floor(ViewOf(rows)) <= i < |ViewOf(rows).messages|
    ensures k < |rows| && rows[k].message.kind.Conversation?
    ensures var view, at := ViewOf(rows), LastCompaction(rows);
      && i == Floor(view) + |Render(rows[..k], at).messages|
      && |view.ids| == |view.messages|
      && view.ids[i] == rows[k].id
      && view.messages[i] == Shown(rows[k].message, k < at, Render(rows[..k], at).calls)
  {
    var view, at := ViewOf(rows), LastCompaction(rows);
    ViewIsRendered(rows);
    k := RenderFrom(rows, at, i - Floor(view));
    var _ := ViewAt(rows, k);
  }

  /** The model's rows split at the compaction row as the transcript does. */
  lemma ListSplits(rows: seq<Row>)
    requires Stored(rows)
    ensures var list := ListForModel(rows);
      && Stored(list)
      && (LastCompaction(rows) < 0 <==> LastCompaction(list) < 0)
      && (LastCompaction(rows) >= 0 ==> list[LastCompaction(list)] == rows[LastCompaction(rows)])
  {
    ListForModelStored(rows);
    var at, list := LastCompaction(rows), ListForModel(rows);
    if at >= 0 {
      var head := Keep(rows[..at], ToSet(rows[at].message.kind.block.kept));
      assert list[|head|] == rows[at];
      assert forall k :: |head| < k < |list| ==> list[k] == rows[at + (k - |head|)];
      assert LastCompaction(list) == |head|;
    }
  }

  /** A stored row that is visible, among the model's rows. */
  lemma Listed(rows: seq<Row>, k: nat) returns (l: nat)
    requires Stored(rows) && k < |rows| && rows[k].message.kind.Conversation? && Shows(rows, k)
    ensures l < |ListForModel(rows)| && ListForModel(rows)[l] == rows[k]
  {
    VisibleAt(rows, k);
    ListForModelHas(rows, k);
    l :| 0 <= l < |ListForModel(rows)| && ListForModel(rows)[l] == rows[k];
  }

  lemma Unlisted(rows: seq<Row>, l: nat) returns (k: nat)
    requires Stored(rows) && l < |ListForModel(rows)|
    ensures k < |rows| && rows[k] == ListForModel(rows)[l]
    ensures rows[k].message.kind.Conversation? ==> Shows(rows, k)
  {
    ListForModelFrom(rows, ListForModel(rows)[l]);
    k :| 0 <= k < |rows| && rows[k] == ListForModel(rows)[l];
    ListForModelHas(rows, k);
    if rows[k].message.kind.Conversation? {
      VisibleAt(rows, k);
    }
  }

  // ---------- Pairing in a view ----------

  /** Calls the fold has seen were shown earlier, by an assistant message. */
  lemma CallShownBefore(rows: seq<Row>, k: nat, call: string) returns (i: nat)
    requires k <= |rows|
    requires call in Render(rows[..k], LastCompaction(rows)).calls
    ensures i < |ViewOf(rows).messages| && i < Floor(ViewOf(rows)) + |Render(rows[..k], LastCompaction(rows)).messages|
    ensures call in CallIds(ViewOf(rows).messages[i])
  {
    var at := LastCompaction(rows);
    RenderCalls(rows[..k], at, call);
    var m := Render(rows[..k], at).messages;
    var p: nat :| p < |m| && call in CallIds(m[p]);
    var l := RenderFrom(rows[..k], at, p);
    RenderAt(rows[..k], at, l);
    assert rows[..k][..l] == rows[..l];
    i := ViewAt(rows, l);
    assert rows[..k][l] == rows[l];
  }

  /** A message that makes calls in a view is an assistant's. */
  lemma CallerIsAssistant(rows: seq<Row>, i: nat)
    requires Shaped(rows) && Stored(rows)
    requires i < |ModelView(rows).messages| && ModelView(rows).messages[i].toolCalls != []
    ensures ModelView(rows).messages[i].role.Assistant?
  {
    var list := ListForModel(rows);
    ViewIsRendered(list);
    if i >= Floor(ViewOf(list)) {
      var l := ViewFrom(list, i);
      var k := Unlisted(rows, l);
      assert ViewOf(list).messages[i] == list[l].message
          || ViewOf(list).messages[i] == Retained(list[l].message);
    }
  }

  /** A kept row shown as a tool message follows its call. */
  lemma KeptToolHasCall(rows: seq<Row>, i: nat, l: nat) returns (j: nat)
    requires l < |rows| && l < LastCompaction(rows) && rows[l].message.kind.Conversation?
    requires i == Floor(ViewOf(rows)) + |Render(rows[..l], LastCompaction(rows)).messages| < |ViewOf(rows).messages|
    requires ViewOf(rows).messages[i].role.Tool?
    ensures rows[l].message == ViewOf(rows).messages[i] && rows[l].message.toolCallId.Some?
    ensures j < i && rows[l].message.toolCallId.value in CallIds(ViewOf(rows).messages[j])
  {
    var _ := ViewAt(rows, l);
    j := CallShownBefore(rows, l, rows[l].message.toolCallId.value);
  }

  /** Rows shown in a view keep their order there. */
  lemma ShownInOrder(rows: seq<Row>, k: nat, n: nat) returns (i: nat, j: nat)
    requires Stored(rows) && k < n < |rows|
    requires rows[k].message.kind.Conversation? && rows[n].message.kind.Conversation?
    requires Shows(rows, k) && Shows(rows, n) && !rows[k].message.role.Tool?
    ensures var view := ModelView(rows);
      && i < j < |view.messages| == |view.ids|
      && view.ids[i] == rows[k].id && view.messages[i] == rows[k].message
      && view.ids[j] == rows[n].id
      && (rows[n].message.toolCallId.Some? && rows[n].message.toolCallId.value in CallIds(rows[k].message)
          ==> view.messages[j] == rows[n].message)
  {
    hide ListForModel, LastCompaction;
    var list := ListForModel(rows);
    ListForModelStored(rows);
    var c := Listed(rows, k);
    var l := Listed(rows, n);
    assert list[c].id.value < list[l].id.value;
    RenderOrder(list, LastCompaction(list), c, l);
    i := ViewAt(list, c);
    j := ViewAt(list, l);
    assert list[..l][..c] == list[..c] && list[..l][c] == list[c];
    RenderAt(list[..l], LastCompaction(list), c);
    var m := Render(list[..l], LastCompaction(list)).messages;
    var p := |Render(list[..c], LastCompaction(list)).messages|;
    if rows[n].message.toolCallId.Some? {
      RenderCalls(list[..l], LastCompaction(list), rows[n].message.toolCallId.value);
      assert m[p] == rows[k].message;
    }
  }

  lemma SameIdSamePlace(rows: seq<Row>, i: nat, j: nat)
    requires Stored(rows)
    requires i < |ModelView(rows).ids| && j < |ModelView(rows).ids|
    requires ModelView(rows).ids[i].Some? && ModelView(rows).ids[i] == ModelView(rows).ids[j]
    ensures i == j
  {
    ListForModelStored(rows);
    ViewIds(ListForModel(rows));
  }

  lemma CallerOf(rows: seq<Row>, n: nat, call: string) returns (k: nat)
    requires Shaped(rows) && n < |rows| && Answers(rows, n, call)
    ensures k < n && Calls(rows, k, call) && rows[k].message.kind.Conversation?
  {
    k :| 0 <= k < n && Calls(rows, k, call);
  }

  /** The call of a result stored after the compaction row is shown. */
  lemma LaterCallerShows(rows: seq<Row>, n: nat, k: nat, call: string)
    requires Stored(rows) && Paired(rows)
    requires LastCompaction(rows) < n < |rows| && k < |rows| && Answers(rows, n, call) && Calls(rows, k, call)
    ensures Shows(rows, k)
  {
  }

  /** Where the row behind a view message is stored, and whether it is a kept one. */
  lemma RowOf(rows: seq<Row>, i: nat) returns (k: nat)
    requires Stored(rows)
    requires Floor(ModelView(rows)) <= i < |ModelView(rows).messages|
    ensures k < |rows| && rows[k].message.kind.Conversation? && Shows(rows, k)
    ensures |ModelView(rows).ids| == |ModelView(rows).messages| && ModelView(rows).ids[i] == rows[k].id
    ensures ModelView(rows).messages[i] == rows[k].message
         || (ModelView(rows).messages[i] == Retained(rows[k].message) && rows[k].message.role.Tool?)
    ensures k > LastCompaction(rows) ==> ModelView(rows).messages[i] == rows[k].message
    ensures k < LastCompaction(rows) && ModelView(rows).messages[i].role.Tool? ==>
              rows[k].message.toolCallId.Some?
              && exists j :: 0 <= j < i && rows[k].message.toolCallId.value in CallIds(ModelView(rows).messages[j])
  {
    var list := ListForModel(rows);
    ListSplits(rows);
    var l := ViewFrom(list, i);
    k := Unlisted(rows, l);
    var at := LastCompaction(list);
    if at >= 0 {
      assert l < at <==> list[l].id.value < list[at].id.value;
    }
    if l < at && ModelView(rows).messages[i].role.Tool? {
      var j := KeptToolHasCall(list, i, l);
    }
  }

  /** Every tool message of a view follows the assistant message that made its call. */
  lemma ToolFollowsCall(rows: seq<Row>, i: nat) returns (j: nat)
    requires Stored(rows) && Shaped(rows) && Paired(rows)
    requires i < |ModelView(rows).messages| && ModelView(rows).messages[i].role.Tool?
    ensures ModelView(rows).messages[i].toolCallId.Some?
    ensures j < i && ModelView(rows).messages[j].role.Assistant?
    ensures ModelView(rows).messages[i].toolCallId.value in CallIds(ModelView(rows).messages[j])
  {
    ViewIsRendered(ListForModel(rows));
    var n := RowOf(rows, i);
    assert ModelView(rows).messages[i] == rows[n].message;
    var call := rows[n].message.toolCallId.value;
    if n < LastCompaction(rows) {
      j :| 0 <= j < i && call in CallIds(ModelView(rows).messages[j]);
    } else {
      var k := CallerOf(rows, n, call);
      LaterCallerShows(rows, n, k, call);
      var p, q := ShownInOrder(rows, k, n);
      SameIdSamePlace(rows, q, i);
      j := p;
    }
    CallerIsAssistant(rows, j);
  }

  /** A call the view shows has every one of its stored results there too, after it and
      still as tool messages. */
  lemma CallShowsResults(rows: seq<Row>, i: nat, call: string, r: nat) returns (j: nat)
    requires Stored(rows) && Shaped(rows) && Paired(rows)
    requires i < |ModelView(rows).messages| && call in CallIds(ModelView(rows).messages[i])
    requires r < |rows| && Answers(rows, r, call)
    ensures i < j < |ModelView(rows).messages| == |ModelView(rows).ids|
    ensures ModelView(rows).messages[j] == rows[r].message && ModelView(rows).ids[j] == rows[r].id
  {
    hide Stored, LastCompaction;
    ViewIsRendered(ListForModel(rows));
    CallerIsAssistant(rows, i);
    var k := RowOf(rows, i);
    assert Calls(rows, k, call);
    var caller := CallerOf(rows, r, call);
    assert caller == k && Shows(rows, r);
    var p, q := ShownInOrder(rows, k, r);
    SameIdSamePlace(rows, p, i);
    j := q;
  }

  /** A kept result whose call the view does not show is a user message there. */
  lemma OrphanIsRetained(rows: seq<Row>, r: nat, call: string) returns (j: nat)
    requires Stored(rows) && Shaped(rows) && Paired(rows)
    requires r < |rows| && Answers(rows, r, call) && Shows(rows, r)
    requires forall i :: 0 <= i < |ModelView(rows).messages| ==> call !in CallIds(ModelView(rows).messages[i])
    ensures j < |ModelView(rows).messages| == |ModelView(rows).ids| && ModelView(rows).ids[j] == rows[r].id
    ensures KeptVerbatim(rows[r].message, ModelView(rows).messages[j]) && ModelView(rows).messages[j].role.User?
  {
    RetainedIsVerbatim(rows[r].message);
    var list := ListForModel(rows);
    var l := Listed(rows, r);
    j := ViewAt(list, l);
    if ModelView(rows).messages[j].role.Tool? {
      var i := ToolFollowsCall(rows, j);
    }
  }

  // ---------- The pending part ----------

  lemma OpenShows(rows: seq<Row>, k: nat, call: string)
    requires Paired(rows) && k < |rows| && Open(rows, k, call)
    ensures Shows(rows, k)
  {
  }

  /** An open call is what the pending part of the view starts with. */
  lemma OpenStartsPending(rows: seq<Row>, k: nat, call: string)
    requires Stored(rows) && Shaped(rows) && Paired(rows)
    requires k < |rows| && Open(rows, k, call)
    ensures var view := ModelView(rows);
      var start := PendingStart(view.messages, Floor(view));
      start < |view.messages| == |view.ids| && view.ids[start] == rows[k].id
  {
    hide Paired, ListForModel;
    OpenShows(rows, k, call);
    var list := ListForModel(rows);
    var view := ViewOf(list);
    ListSplits(rows);
    ViewIds(list);
    var l := Listed(rows, k);
    var i := ViewAt(list, l);
    forall j | i < j < |view.messages| ensures !view.messages[j].role.Assistant? {
      var c := ViewFrom(list, j);
      var n := Unlisted(rows, c);
      assert view.ids[i].value < view.ids[j].value;
    }
    PendingStartAtCall(view.messages, Floor(view), i);
  }
}
