/** Which call a result without an id answers: the oldest one that nothing has answered since it was
    made. */
module PairingOrder {
  import opened Messages
  import opened Pairing

  /** The ids of all calls, in the order they were made. */
  function AllCalls(messages: seq<Message>): seq<string> {
    if messages == [] then [] else AllCalls(messages[..|messages| - 1]) + IdList(messages[|messages| - 1].toolCalls)
  }

  ghost predicate CallsAt(messages: seq<Message>, k: nat, id: string)
    requires k < |messages|
  {
    id in IdList(messages[k].toolCalls)
  }

  /** A call of this id was made, and no result after it has the id. */
  ghost predicate Waits(messages: seq<Message>, id: string) {
    exists k :: 0 <= k < |messages| && CallsAt(messages, k, id)
                && forall j :: k < j < |messages| && messages[j].role.Tool? ==> ResultId(messages[j]) != id
  }

  /** Of these calls, the ones that wait, in their order. */
  ghost function Waiting(messages: seq<Message>, ids: seq<string>): seq<string> {
    if ids == [] then []
    else
      Waiting(messages, ids[..|ids| - 1])
      + if Waits(messages, ids[|ids| - 1]) then [ids[|ids| - 1]] else []
  }

  ghost predicate NoneTwice(ids: seq<string>) {
    forall i, j :: 0 <= i < j < |ids| ==> ids[i] != ids[j]
  }

  // ---------- Calls, once each ----------

  lemma {:induction false} CallsCounted(messages: seq<Message>, id: string)
    ensures multiset(AllCalls(messages))[id] == CallCount(messages, id)
  {
    if messages != [] {
      CallsCounted(messages[..|messages| - 1], id);
      IdsCounted(messages[|messages| - 1].toolCalls, id);
    }
  }

  lemma {:induction false} IdsCounted(calls: seq<ToolCall>, id: string)
    ensures multiset(IdList(calls))[id] == CallsNamed(calls, id)
  {
    if calls != [] {
      var n := |calls| - 1;
      IdsCounted(calls[..n], id);
      assert IdList(calls) == IdList(calls[..n]) + [calls[n].id];
    }
  }

  lemma TwiceCounts(ids: seq<string>, i: nat, j: nat)
    requires i < j < |ids| && ids[i] == ids[j]
    ensures multiset(ids)[ids[i]] >= 2
  {
    assert ids == ids[..j] + ids[j..];
    assert ids[..j][i] == ids[i] && ids[j..][0] == ids[i];
  }

  lemma OnceEach(messages: seq<Message>)
    requires forall id :: CallCount(messages, id) <= 1
    ensures NoneTwice(AllCalls(messages))
  {
    var ids := AllCalls(messages);
    forall i, j | 0 <= i < j < |ids| ensures ids[i] != ids[j] {
      CallsCounted(messages, ids[i]);
      if ids[i] == ids[j] {
        TwiceCounts(ids, i, j);
      }
    }
  }

  lemma NoneInBoth(a: seq<string>, b: seq<string>, id: string)
    requires NoneTwice(a + b) && id in a
    ensures id !in b
  {
    var i :| 0 <= i < |a| && a[i] == id;
    forall j | 0 <= j < |b| ensures b[j] != id {
      assert (a + b)[i] == id && (a + b)[|a| + j] == b[j];
    }
  }

  // ---------- One message more ----------

  lemma WaitsMore(before: seq<Message>, message: Message, id: string)
    requires NoneTwice(AllCalls(before + [message]))
    requires message.toolCalls != [] ==> !message.role.Tool?
    ensures Waits(before + [message], id) <==>
              id in IdList(message.toolCalls) || (Waits(before, id) && !(message.role.Tool? && ResultId(message) == id))
  {
    var all := before + [message];
    assert all[..|before|] == before;
    if id in IdList(message.toolCalls) {
      assert CallsAt(all, |before|, id);
    }
    if Waits(before, id) && !(message.role.Tool? && ResultId(message) == id) {
      var k :| 0 <= k < |before| && CallsAt(before, k, id)
               && forall j :: k < j < |before| && before[j].role.Tool? ==> ResultId(before[j]) != id;
      assert CallsAt(all, k, id);
    }
    if Waits(all, id) && id !in IdList(message.toolCalls) {
      var k :| 0 <= k < |all| && CallsAt(all, k, id)
               && forall j :: k < j < |all| && all[j].role.Tool? ==> ResultId(all[j]) != id;
      assert CallsAt(before, k, id);
      assert all[|before|] == message;
      forall j | k < j < |before| && before[j].role.Tool? ensures ResultId(before[j]) != id {
        assert all[j] == before[j];
      }
    }
  }

  /** An answered call waits no more, and the others wait on. */
  lemma {:induction false} WaitingAnswered(before: seq<Message>, message: Message, ids: seq<string>)
    requires NoneTwice(AllCalls(before + [message])) && message.role.Tool? && message.toolCalls == []
    requires NoneTwice(ids)
    ensures Waiting(before + [message], ids) == RemoveFirst(Waiting(before, ids), ResultId(message))
    ensures forall id :: id in Waiting(before, ids) ==> id in ids
  {
    if ids != [] {
      var n := |ids| - 1;
      WaitingAnswered(before, message, ids[..n]);
      WaitsMore(before, message, ids[n]);
      assert ids[n] !in ids[..n];
      if Waits(before, ids[n]) {
        RemoveAppend(Waiting(before, ids[..n]), ids[n], ResultId(message));
      } else {
        assert Waiting(before, ids) == Waiting(before, ids[..n]);
      }
    }
  }

  lemma {:induction false} RemoveAppend(pending: seq<string>, last: string, id: string)
    requires last !in pending
    ensures RemoveFirst(pending + [last], id)
            == if id == last then RemoveFirst(pending, id) else RemoveFirst(pending, id) + [last]
  {
    if pending == [] {
      assert pending + [last] == [last];
    } else {
      assert (pending + [last])[1..] == pending[1..] + [last];
      if pending[0] != id {
        RemoveAppend(pending[1..], last, id);
      }
    }
  }

  lemma {:induction false} WaitingSame(a: seq<Message>, b: seq<Message>, ids: seq<string>)
    requires forall id :: id in ids ==> (Waits(a, id) <==> Waits(b, id))
    ensures Waiting(a, ids) == Waiting(b, ids)
  {
    if ids != [] {
      WaitingSame(a, b, ids[..|ids| - 1]);
    }
  }

  lemma {:induction false} WaitingAll(messages: seq<Message>, ids: seq<string>, more: seq<string>)
    requires forall id :: id in more ==> Waits(messages, id)
    ensures Waiting(messages, ids + more) == Waiting(messages, ids) + more
  {
    if more == [] {
      assert ids + more == ids;
    } else {
      var n := |more| - 1;
      WaitingAll(messages, ids, more[..n]);
      assert (ids + more)[..|ids + more| - 1] == ids + more[..n];
    }
  }

  lemma WaitingCalled(before: seq<Message>, message: Message)
    requires NoneTwice(AllCalls(before + [message])) && !message.role.Tool?
    ensures Waiting(before + [message], AllCalls(before + [message]))
            == Waiting(before, AllCalls(before)) + IdList(message.toolCalls)
  {
    var all, ids, more := before + [message], AllCalls(before), IdList(message.toolCalls);
    assert all[..|before|] == before && AllCalls(all) == ids + more;
    forall id | id in ids + more ensures Waits(all, id) <==> id in more || Waits(before, id) {
      WaitsMore(before, message, id);
    }
    forall id | id in ids ensures Waits(all, id) <==> Waits(before, id) {
      NoneInBoth(ids, more, id);
    }
    WaitingSame(all, before, ids);
    WaitingAll(all, ids, more);
  }

  // ---------- The calls that wait ----------

  lemma NoneTwicePrefix(messages: seq<Message>)
    requires messages != [] && NoneTwice(AllCalls(messages))
    ensures NoneTwice(AllCalls(messages[..|messages| - 1]))
  {
    var ids := AllCalls(messages[..|messages| - 1]);
    forall i, j | 0 <= i < j < |ids| ensures ids[i] != ids[j] {
      assert AllCalls(messages)[i] == ids[i] && AllCalls(messages)[j] == ids[j];
    }
  }

  lemma PendingResult(messages: seq<Message>, result: Message, uuids: nat -> string)
    requires result.role.Tool? && result.toolCalls == []
    requires NoneTwice(AllCalls(Name(messages + [result], uuids).messages))
    requires Name(messages, uuids).pending == Waiting(Name(messages, uuids).messages,
        AllCalls(Name(messages, uuids).messages))
    requires forall n :: uuids(n) != ""
    ensures var r := Name(messages + [result], uuids);
      r.pending == Waiting(r.messages, AllCalls(r.messages))
  {
    assert (messages + [result])[..|messages|] == messages;
    var before, r := Name(messages, uuids), Name(messages + [result], uuids);
    var message := r.messages[|messages|];
    assert r.messages == before.messages + [message];
    assert AllCalls(r.messages) == AllCalls(before.messages);
    hide Waiting;
    WaitingAnswered(before.messages, message, AllCalls(before.messages));
  }

  lemma PendingOther(messages: seq<Message>, other: Message, uuids: nat -> string)
    requires !other.role.Tool? && (other.toolCalls != [] ==> other.role.Assistant?)
    requires NoneTwice(AllCalls(Name(messages + [other], uuids).messages))
    requires Name(messages, uuids).pending == Waiting(Name(messages, uuids).messages,
        AllCalls(Name(messages, uuids).messages))
    ensures var r := Name(messages + [other], uuids);
      r.pending == Waiting(r.messages, AllCalls(r.messages))
  {
    assert (messages + [other])[..|messages|] == messages;
    var before, r := Name(messages, uuids), Name(messages + [other], uuids);
    var message := r.messages[|messages|];
    assert r.messages == before.messages + [message];
    hide Waiting, NoneTwice, NameCalls;
    WaitingCalled(before.messages, message);
  }

  /** What naming keeps as pending is exactly the calls that wait, oldest first. */
  lemma {:induction false} PendingWaits(messages: seq<Message>, uuids: nat -> string)
    requires OnlyAssistantsCall(messages) && (forall n :: uuids(n) != "")
    requires NoneTwice(AllCalls(Name(messages, uuids).messages))
    ensures var r := Name(messages, uuids);
      r.pending == Waiting(r.messages, AllCalls(r.messages))
  {
    if messages != [] {
      var last := |messages| - 1;
      OnlyAssistantsPrefix(messages, last);
      assert Name(messages, uuids).messages[..last] == Name(messages[..last], uuids).messages;
      NoneTwicePrefix(Name(messages, uuids).messages);
      hide Name, Waiting, NoneTwice;
      PendingWaits(messages[..last], uuids);
      assert messages == messages[..last] + [messages[last]];
      if messages[last].role.Tool? {
        PendingResult(messages[..last], messages[last], uuids);
      } else {
        PendingOther(messages[..last], messages[last], uuids);
      }
    }
  }

  lemma {:induction false} FirstWaiting(messages: seq<Message>, ids: seq<string>) returns (p: nat)
    requires Waiting(messages, ids) != []
    ensures p < |ids| && ids[p] == Waiting(messages, ids)[0] && Waits(messages, ids[p])
    ensures forall q :: 0 <= q < p ==> !Waits(messages, ids[q])
  {
    var n := |ids| - 1;
    if Waiting(messages, ids[..n]) != [] {
      p := FirstWaiting(messages, ids[..n]);
    } else {
      p := n;
      NoneWaiting(messages, ids[..n]);
    }
  }

  lemma {:induction false} NoneWaiting(messages: seq<Message>, ids: seq<string>)
    requires Waiting(messages, ids) == []
    ensures forall q :: 0 <= q < |ids| ==> !Waits(messages, ids[q])
  {
    if ids != [] {
      NoneWaiting(messages, ids[..|ids| - 1]);
    }
  }

  /** A result without an id answers the oldest call that still waits, and gets an id of its own when
      none does. */
  lemma NamelessAnswersOldest(messages: seq<Message>, result: Message, uuids: nat -> string) returns (p: nat)
    requires DistinctCalls(messages) && OnlyAssistantsCall(messages) && Fresh(messages, uuids)
    requires result.role.Tool? && ResultId(result) == ""
    ensures var named := Name(messages, uuids).messages;
      var calls := AllCalls(named);
      var id := Name(messages + [result], uuids).messages[|messages|].toolCallId;
      if exists q :: 0 <= q < |calls| && Waits(named, calls[q])
      then p < |calls| && Waits(named, calls[p]) && (forall q :: 0 <= q < p ==> !Waits(named, calls[q]))
           && id == Some(calls[p])
      else id.Some? && Generated(uuids, id.value)
  {
    NamedAreDistinct(messages, uuids);
    var r := Name(messages, uuids);
    OnceEach(r.messages);
    PendingWaits(messages, uuids);
    assert (messages + [result])[..|messages|] == messages;
    p := 0;
    hide Waits, NoneTwice, AllCalls, DistinctCalls, OnlyAssistantsCall;
    if r.pending != [] {
      p := FirstWaiting(r.messages, AllCalls(r.messages));
    } else {
      NoneWaiting(r.messages, AllCalls(r.messages));
    }
  }

  /** What stands in for a call nothing answered says that it was interrupted, under the call's own id
      and name. */
  lemma {:induction false} MissingSays(calls: seq<ToolCall>, answered: set<string>, k: nat)
    requires k < |Missing(calls, answered)|
    ensures exists c :: 0 <= c < |calls| && calls[c].id !in answered && Missing(calls, answered)[k] == Message(
              Tool, Plain("{\"status\": \"interrupted\", \"error\": \"" + TOOL_OUTPUT_UNAVAILABLE + "\"}"), [],
              Some(calls[c].id), Some(calls[c].name), None, Conversation, None, 0)
  {
    var n := |calls| - 1;
    if k < |Missing(calls[..n], answered)| {
      MissingSays(calls[..n], answered, k);
      var c :| 0 <= c < n && calls[..n][c].id !in answered && Missing(calls[..n], answered)[k] == Message(
              Tool, Plain("{\"status\": \"interrupted\", \"error\": \"" + TOOL_OUTPUT_UNAVAILABLE + "\"}"), [],
              Some(calls[..n][c].id), Some(calls[..n][c].name), None, Conversation, None, 0);
      assert calls[..n][c] == calls[c];
    } else {
      assert Missing(calls, answered)[k] == Interrupted(calls[n]);
    }
  }
}
