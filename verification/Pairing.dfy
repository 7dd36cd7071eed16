/** Messages every provider accepts: each tool call paired with exactly one result. */
module Pairing {
  import opened Messages

  const TOOL_OUTPUT_UNAVAILABLE: string :=
    "No output was recorded for this tool call. It may or may not have taken effect. "
    + "Check its effects before retrying; do not assume success."

  function Interrupted(call: ToolCall): Message {
    Message(Tool, Plain("{\"status\": \"interrupted\", \"error\": \"" + TOOL_OUTPUT_UNAVAILABLE + "\"}"), [],
            Some(call.id), Some(call.name), None, Conversation, None, 0)
  }

  // ---------- Naming calls and results ----------

  /** Calls without an id get the next generated one. */
  function NameCalls(calls: seq<ToolCall>, next: nat, uuids: nat -> string): (r: (seq<ToolCall>, nat))
    ensures |r.0| == |calls| && r.1 >= next
    ensures (forall k :: 0 <= k < |calls| ==> calls[k].id != "") ==> r == (calls, next)
  {
    if calls == [] then ([], next)
    else
      var (named, after) := NameCalls(calls[..|calls| - 1], next, uuids);
      var call := calls[|calls| - 1];
      assert calls == calls[..|calls| - 1] + [call];
      if call.id == "" then (named + [call.(id := uuids(after))], after + 1) else (named + [call], after)
  }

  function IdList(calls: seq<ToolCall>): seq<string> {
    seq(|calls|, k requires 0 <= k < |calls| => calls[k].id)
  }

  function RemoveFirst(pending: seq<string>, id: string): seq<string> {
    if pending == [] then []
    else if pending[0] == id then pending[1..]
    else [pending[0]] + RemoveFirst(pending[1..], id)
  }

  function ResultId(message: Message): string {
    if message.toolCallId.Some? then message.toolCallId.value else ""
  }

  datatype Named = Named(messages: seq<Message>, pending: seq<string>, next: nat)

  /** Every call and every result with an id: a result without one answers the oldest call
      that still waits. */
  function Name(messages: seq<Message>, uuids: nat -> string): (r: Named)
    ensures |r.messages| == |messages|
  {
    if messages == [] then Named([], [], 0)
    else
      var r := Name(messages[..|messages| - 1], uuids);
      var message := messages[|messages| - 1];
      if message.role.Assistant? then
        var (calls, next) := NameCalls(message.toolCalls, r.next, uuids);
        Named(r.messages + [message.(toolCalls := calls)], r.pending + IdList(calls), next)
      else if message.role.Tool? then
        if ResultId(message) != "" then Named(r.messages + [message], RemoveFirst(r.pending, ResultId(message)), r.next)
        else if r.pending != [] then
          Named(r.messages + [message.(toolCallId := Some(r.pending[0]))], r.pending[1..], r.next)
        else Named(r.messages + [message.(toolCallId := Some(uuids(r.next)))], r.pending, r.next + 1)
      else Named(r.messages + [message], r.pending, r.next)
  }

  // ---------- Pairing ----------

  function Answered(messages: seq<Message>): set<string> {
    set k | 0 <= k < |messages| && messages[k].role.Tool? :: ResultId(messages[k])
  }

  function Missing(calls: seq<ToolCall>, answered: set<string>): seq<Message> {
    if calls == [] then []
    else
      Missing(calls[..|calls| - 1], answered)
      + if calls[|calls| - 1].id !in answered then [Interrupted(calls[|calls| - 1])] else []
  }

  datatype Paired = Paired(messages: seq<Message>, sent: set<string>)

  function Pair(messages: seq<Message>, answered: set<string>): Paired {
    if messages == [] then Paired([], {})
    else
      var r := Pair(messages[..|messages| - 1], answered);
      var message := messages[|messages| - 1];
      if message.role.Tool? && ResultId(message) in r.sent then r
      else
        Paired(r.messages + [message] + Missing(message.toolCalls, answered),
               if message.role.Tool? then r.sent + {ResultId(message)} else r.sent)
  }

  function Sanitize(messages: seq<Message>, uuids: nat -> string): seq<Message> {
    var named := Name(messages, uuids).messages;
    Pair(named, Answered(named)).messages
  }

  method NameEachCall(calls: seq<ToolCall>, from: nat, uuids: nat -> string) returns (named: seq<ToolCall>, next: nat)
    ensures (named, next) == NameCalls(calls, from, uuids)
  {
    named, next := [], from;
    for c := 0 to |calls|
      invariant (named, next) == NameCalls(calls[..c], from, uuids)
    {
      assert calls[..c + 1][..c] == calls[..c];
      var call := calls[c];
      if call.id == "" {
        call := call.(id := uuids(next));
        next := next + 1;
      }
      named := named + [call];
    }
    assert calls[..|calls|] == calls;
  }

  method NameMessages(messages: seq<Message>, uuids: nat -> string) returns (sanitized: seq<Message>)
    ensures sanitized == Name(messages, uuids).messages
  {
    sanitized := [];
    var pending, next := [], 0;
    for i := 0 to |messages|
      invariant Name(messages[..i], uuids) == Named(sanitized, pending, next)
    {
      assert messages[..i + 1][..i] == messages[..i];
      var message := messages[i];
      if message.role.Assistant? {
        var calls;
        calls, next := NameEachCall(message.toolCalls, next, uuids);
        pending := pending + IdList(calls);
        message := message.(toolCalls := calls);
      } else if message.role.Tool? {
        var id := ResultId(message);
        if id != "" {
          pending := RemoveFirst(pending, id);
        } else if pending != [] {
          message := message.(toolCallId := Some(pending[0]));
          pending := pending[1..];
        } else {
          message := message.(toolCallId := Some(uuids(next)));
          next := next + 1;
        }
      }
      sanitized := sanitized + [message];
    }
    assert messages[..|messages|] == messages;
  }

  method SanitizeToolMessages(messages: seq<Message>, uuids: nat -> string) returns (paired: seq<Message>)
    ensures paired == Sanitize(messages, uuids)
  {
    var sanitized := NameMessages(messages, uuids);
    var answered := Answered(sanitized);
    paired := [];
    var sent := {};
    for i := 0 to |sanitized|
      invariant Pair(sanitized[..i], answered) == Paired(paired, sent)
    {
      assert sanitized[..i + 1][..i] == sanitized[..i];
      var message := sanitized[i];
      if message.role.Tool? {
        if ResultId(message) in sent {
          continue;
        }
        sent := sent + {ResultId(message)};
      }
      paired := paired + [message] + Missing(message.toolCalls, answered);
    }
    assert sanitized[..|sanitized|] == sanitized;
  }

  // ---------- Counting calls and results ----------

  function CallsNamed(calls: seq<ToolCall>, id: string): nat {
    if calls == [] then 0
    else CallsNamed(calls[..|calls| - 1], id) + if calls[|calls| - 1].id == id then 1 else 0
  }

  function CallCount(messages: seq<Message>, id: string): nat {
    if messages == [] then 0
    else CallCount(messages[..|messages| - 1], id) + CallsNamed(messages[|messages| - 1].toolCalls, id)
  }

  function ResultCount(messages: seq<Message>, id: string): nat {
    if messages == [] then 0
    else
      var last := messages[|messages| - 1];
      ResultCount(messages[..|messages| - 1], id) + if last.role.Tool? && ResultId(last) == id then 1 else 0
  }

  /** No two calls were given the same id. Some may have none. */
  ghost predicate DistinctCalls(messages: seq<Message>) {
    forall id :: id != "" ==> CallCount(messages, id) <= 1
  }

  /** Generated ids are never empty, never twice the same, and never one a call was given. */
  ghost predicate Fresh(messages: seq<Message>, uuids: nat -> string) {
    && GoodIds(uuids)
    && forall n :: CallCount(messages, uuids(n)) == 0
  }

  ghost predicate GoodIds(uuids: nat -> string) {
    && (forall n :: uuids(n) != "")
    && (forall m, n :: m != n ==> uuids(m) != uuids(n))
  }

  ghost predicate Generated(uuids: nat -> string, id: string) {
    exists n :: uuids(n) == id
  }

  lemma {:induction false} ResultCountAppend(a: seq<Message>, b: seq<Message>, id: string)
    ensures ResultCount(a + b, id) == ResultCount(a, id) + ResultCount(b, id)
  {
    if b == [] {
      assert a + b == a;
    } else {
      assert (a + b)[..|a + b| - 1] == a + b[..|b| - 1];
      ResultCountAppend(a, b[..|b| - 1], id);
    }
  }

  lemma {:induction false} CallCountAppend(a: seq<Message>, b: seq<Message>, id: string)
    ensures CallCount(a + b, id) == CallCount(a, id) + CallCount(b, id)
  {
    if b == [] {
      assert a + b == a;
    } else {
      assert (a + b)[..|a + b| - 1] == a + b[..|b| - 1];
      CallCountAppend(a, b[..|b| - 1], id);
    }
  }

  lemma {:induction false} MissingCounts(calls: seq<ToolCall>, answered: set<string>, id: string)
    ensures ResultCount(Missing(calls, answered), id) == if id in answered then 0 else CallsNamed(calls, id)
    ensures CallCount(Missing(calls, answered), id) == 0
  {
    if calls != [] {
      var rest := Missing(calls[..|calls| - 1], answered);
      MissingCounts(calls[..|calls| - 1], answered, id);
      var call := calls[|calls| - 1];
      if call.id !in answered {
        assert (rest + [Interrupted(call)])[..|rest|] == rest;
      } else {
        assert rest + [] == rest;
      }
    }
  }

  ghost predicate OnlyAssistantsCall(messages: seq<Message>) {
    forall k :: 0 <= k < |messages| && messages[k].toolCalls != [] ==> messages[k].role.Assistant?
  }

  lemma CountsOfOne(message: Message, id: string)
    ensures ResultCount([message], id) == if message.role.Tool? && ResultId(message) == id then 1 else 0
    ensures CallCount([message], id) == CallsNamed(message.toolCalls, id)
  {
    assert [message][..0] == [];
  }

  lemma PairStepCounts(paired: seq<Message>, message: Message, answered: set<string>, id: string)
    ensures var next := paired + [message] + Missing(message.toolCalls, answered);
      && CallCount(next, id) == CallCount(paired, id) + CallsNamed(message.toolCalls, id)
      && ResultCount(next, id) == ResultCount(paired, id)
           + (if message.role.Tool? && ResultId(message) == id then 1 else 0)
           + (if id in answered then 0 else CallsNamed(message.toolCalls, id))
  {
    var missing := Missing(message.toolCalls, answered);
    CountsOfOne(message, id);
    MissingCounts(message.toolCalls, answered, id);
    ResultCountAppend(paired, [message], id);
    ResultCountAppend(paired + [message], missing, id);
    CallCountAppend(paired, [message], id);
    CallCountAppend(paired + [message], missing, id);
  }

  /** A result id is sent once, with the real result when there is one; a call no result
      answers gets one interrupted result. */
  lemma {:induction false} PairCounts(messages: seq<Message>, answered: set<string>, id: string)
    requires Answered(messages) <= answered && OnlyAssistantsCall(messages)
    ensures var r := Pair(messages, answered);
      && r.sent == Answered(messages)
      && CallCount(r.messages, id) == CallCount(messages, id)
      && ResultCount(r.messages, id) == if id in answered then (if id in r.sent then 1 else 0)
          else CallCount(messages, id)
  {
    if messages != [] {
      var n := |messages| - 1;
      var init, message := messages[..n], messages[n];
      AnsweredAppend(init, message);
      assert messages == init + [message];
      PairCounts(init, answered, id);
      PairStepCounts(Pair(init, answered).messages, message, answered, id);
    }
  }

  lemma AnsweredAppend(messages: seq<Message>, message: Message)
    ensures Answered(messages + [message]) == Answered(messages) + if message.role.Tool? then {ResultId(message)}
        else {}
  {
    var all := messages + [message];
    assert all[|messages|] == message;
    forall id | id in Answered(messages) ensures id in Answered(all) {
      var k :| 0 <= k < |messages| && messages[k].role.Tool? && ResultId(messages[k]) == id;
      assert all[k] == messages[k];
    }
  }

  lemma {:induction false} AnsweredCount(messages: seq<Message>, id: string)
    ensures id in Answered(messages) <==> ResultCount(messages, id) >= 1
  {
    if messages != [] {
      var n := |messages| - 1;
      AnsweredCount(messages[..n], id);
      AnsweredAppend(messages[..n], messages[n]);
      assert messages == messages[..n] + [messages[n]];
    }
  }

  lemma {:induction false} CallAmong(calls: seq<ToolCall>, c: nat)
    requires c < |calls|
    ensures CallsNamed(calls, calls[c].id) >= 1
  {
    if c < |calls| - 1 {
      CallAmong(calls[..|calls| - 1], c);
    }
  }

  lemma {:induction false} CallCounted(messages: seq<Message>, k: nat, c: nat)
    requires k < |messages| && c < |messages[k].toolCalls|
    ensures CallCount(messages, messages[k].toolCalls[c].id) >= 1
  {
    if k < |messages| - 1 {
      CallCounted(messages[..|messages| - 1], k, c);
    } else {
      CallAmong(messages[k].toolCalls, c);
    }
  }

  // ---------- What naming changes ----------

  ghost predicate NonEmptyCalls(messages: seq<Message>) {
    forall k, c :: 0 <= k < |messages| && 0 <= c < |messages[k].toolCalls| ==> messages[k].toolCalls[c].id != ""
  }

  predicate CallNamedAs(call: ToolCall, named: ToolCall) {
    named == call.(id := named.id) && (call.id != "" ==> named == call)
  }

  ghost predicate CallsNamedAs(calls: seq<ToolCall>, named: seq<ToolCall>) {
    |named| == |calls| && forall c :: 0 <= c < |calls| ==> CallNamedAs(calls[c], named[c])
  }

  ghost predicate NamedAs(message: Message, named: Message) {
    && named == message.(toolCallId := named.toolCallId, toolCalls := named.toolCalls)
    && (!message.role.Tool? || ResultId(message) != "" ==> named.toolCallId == message.toolCallId)
    && CallsNamedAs(message.toolCalls, named.toolCalls)
    && (!message.role.Assistant? ==> named.toolCalls == message.toolCalls)
  }

  lemma {:induction false} NameCallsKeeps(calls: seq<ToolCall>, from: nat, uuids: nat -> string)
    ensures CallsNamedAs(calls, NameCalls(calls, from, uuids).0)
  {
    if calls != [] {
      NameCallsKeeps(calls[..|calls| - 1], from, uuids);
      var n := |calls| - 1;
      var before, named := NameCalls(calls[..n], from, uuids).0, NameCalls(calls, from, uuids).0;
      forall c | 0 <= c < |calls| ensures CallNamedAs(calls[c], named[c]) {
        if c < n {
          assert CallNamedAs(calls[..n][c], before[c]) && named[c] == before[c];
        }
      }
    }
  }

  /** Naming gives ids to calls and results that had none, and changes nothing else. */
  lemma {:induction false} NameKeeps(messages: seq<Message>, uuids: nat -> string)
    ensures var named := Name(messages, uuids).messages;
      forall k :: 0 <= k < |messages| ==> NamedAs(messages[k], named[k])
  {
    if messages != [] {
      var n := |messages| - 1;
      NameKeeps(messages[..n], uuids);
      var before, named := Name(messages[..n], uuids), Name(messages, uuids).messages;
      assert named[..n] == before.messages;
      if messages[n].role.Assistant? {
        NameCallsKeeps(messages[n].toolCalls, before.next, uuids);
      }
      assert NamedAs(messages[n], named[n]);
      forall k | 0 <= k < n ensures NamedAs(messages[k], named[k]) {
        assert NamedAs(messages[..n][k], before.messages[k]);
      }
    }
  }

  lemma NamedOnlyAssistantsCall(messages: seq<Message>, uuids: nat -> string)
    requires OnlyAssistantsCall(messages)
    ensures OnlyAssistantsCall(Name(messages, uuids).messages)
  {
    NameKeeps(messages, uuids);
    var named := Name(messages, uuids).messages;
    forall k | 0 <= k < |named| && named[k].toolCalls != [] ensures named[k].role.Assistant? {
      assert NamedAs(messages[k], named[k]);
    }
  }

  // ---------- The ids of named calls ----------

  /** Named calls keep the ids they were given and share none of the generated ones. */
  lemma {:induction false} NameCallsCount(calls: seq<ToolCall>, from: nat, uuids: nat -> string, id: string, n: nat)
    requires GoodIds(uuids) && CallsNamed(calls, uuids(n)) == 0
    ensures var (named, next) := NameCalls(calls, from, uuids);
      && CallsNamed(named, "") == 0
      && (id != "" && !Generated(uuids, id) ==> CallsNamed(named, id) == CallsNamed(calls, id))
      && CallsNamed(named, uuids(n)) == if from <= n < next then 1 else 0
  {
    if calls != [] {
      var last := |calls| - 1;
      NameCallsCount(calls[..last], from, uuids, id, n);
      var (before, after) := NameCalls(calls[..last], from, uuids);
      var (named, next) := NameCalls(calls, from, uuids);
      assert named[..last] == before;
      assert calls[last].id == "" ==> Generated(uuids, named[last].id);
    }
  }

  /** The same for all messages: a generated id names one call at most. */
  lemma {:induction false} NameCount(messages: seq<Message>, uuids: nat -> string, id: string, n: nat)
    requires OnlyAssistantsCall(messages) && GoodIds(uuids) && CallCount(messages, uuids(n)) == 0
    ensures var r := Name(messages, uuids);
      && CallCount(r.messages, "") == 0
      && (id != "" && !Generated(uuids, id) ==> CallCount(r.messages, id) == CallCount(messages, id))
      && CallCount(r.messages, uuids(n)) <= (if n < r.next then 1 else 0)
  {
    if messages != [] {
      var last := |messages| - 1;
      OnlyAssistantsPrefix(messages, last);
      NameCount(messages[..last], uuids, id, n);
      var before, r := Name(messages[..last], uuids), Name(messages, uuids);
      assert r.messages[..last] == before.messages;
      if messages[last].role.Assistant? {
        NameCallsCount(messages[last].toolCalls, before.next, uuids, id, n);
      }
    }
  }

  lemma OnlyAssistantsPrefix(messages: seq<Message>, n: nat)
    requires OnlyAssistantsCall(messages) && n <= |messages|
    ensures OnlyAssistantsCall(messages[..n])
  {
    forall k | 0 <= k < n && messages[..n][k].toolCalls != [] ensures messages[..n][k].role.Assistant? {
      assert messages[..n][k] == messages[k];
    }
  }

  /** Once named, every call has an id of its own. */
  lemma NamedAreDistinct(messages: seq<Message>, uuids: nat -> string)
    requires DistinctCalls(messages) && OnlyAssistantsCall(messages) && Fresh(messages, uuids)
    ensures var named := Name(messages, uuids).messages;
      && CallCount(named, "") == 0 && NonEmptyCalls(named) && OnlyAssistantsCall(named)
      && forall id :: CallCount(named, id) <= 1
  {
    var named := Name(messages, uuids).messages;
    NamedOnlyAssistantsCall(messages, uuids);
    NameCount(messages, uuids, "", 0);
    NonEmptyFromCounts(named);
    forall id ensures CallCount(named, id) <= 1 {
      if Generated(uuids, id) {
        var n :| uuids(n) == id;
        NameCount(messages, uuids, id, n);
      } else {
        NameCount(messages, uuids, id, 0);
      }
    }
  }

  /** Every result has an id afterwards. */
  lemma {:induction false} NamesResults(messages: seq<Message>, uuids: nat -> string)
    requires OnlyAssistantsCall(messages) && Fresh(messages, uuids)
    ensures var r := Name(messages, uuids);
      && (forall k :: 0 <= k < |messages| && messages[k].role.Tool? ==> ResultId(r.messages[k]) != "")
      && (forall k :: 0 <= k < |r.pending| ==> r.pending[k] != "")
  {
    if messages != [] {
      var n := |messages| - 1;
      OnlyAssistantsPrefix(messages, n);
      forall k ensures CallCount(messages[..n], uuids(k)) == 0 {
        assert CallCount(messages, uuids(k)) == 0;
      }
      NamesResults(messages[..n], uuids);
      var before, r := Name(messages[..n], uuids), Name(messages, uuids);
      forall k | 0 <= k < n && messages[k].role.Tool? ensures ResultId(r.messages[k]) != "" {
        assert messages[..n][k] == messages[k] && r.messages[k] == before.messages[k];
      }
      if messages[n].role.Tool? && ResultId(messages[n]) != "" {
        RemoveKeeps(before.pending, ResultId(messages[n]));
      } else if messages[n].role.Assistant? {
        assert CallCount(messages, uuids(0)) == 0;
        NameCallsCount(messages[n].toolCalls, before.next, uuids, "", 0);
        var calls := NameCalls(messages[n].toolCalls, before.next, uuids).0;
        forall c | 0 <= c < |calls| ensures IdList(calls)[c] != "" {
          CallAmong(calls, c);
        }
      }
    }
  }

  lemma {:induction false} RemoveKeeps(pending: seq<string>, id: string)
    requires forall k :: 0 <= k < |pending| ==> pending[k] != ""
    ensures forall k :: 0 <= k < |RemoveFirst(pending, id)| ==> RemoveFirst(pending, id)[k] != ""
  {
    if pending != [] && pending[0] != id {
      RemoveKeeps(pending[1..], id);
    }
  }

  lemma NonEmptyFromCounts(messages: seq<Message>)
    requires CallCount(messages, "") == 0
    ensures NonEmptyCalls(messages)
  {
    forall k, c | 0 <= k < |messages| && 0 <= c < |messages[k].toolCalls| ensures messages[k].toolCalls[c].id != "" {
      CallCounted(messages, k, c);
    }
  }

  // ---------- One result per call ----------

  /** Every call, also one whose id was generated, ends with exactly one result; an id that nobody
      called or answered has none; and calls keep the ids they were given. */
  lemma EveryCallHasOneResult(messages: seq<Message>, uuids: nat -> string, id: string)
    requires DistinctCalls(messages) && OnlyAssistantsCall(messages) && Fresh(messages, uuids)
    ensures var named, sent := Name(messages, uuids).messages, Sanitize(messages, uuids);
      && CallCount(sent, id) == CallCount(named, id) <= 1 && CallCount(sent, "") == 0
      && (id != "" && !Generated(uuids, id) ==> CallCount(sent, id) == CallCount(messages, id))
      && ResultCount(sent, id) == (if id in Answered(named) then 1 else CallCount(named, id))
      && (CallCount(sent, id) == 1 ==> ResultCount(sent, id) == 1)
  {
    var named := Name(messages, uuids).messages;
    NamedAreDistinct(messages, uuids);
    NameCount(messages, uuids, id, 0);
    PairCounts(named, Answered(named), id);
    PairCounts(named, Answered(named), "");
  }

  // ---------- What else is sent ----------

  /** The messages, without the later duplicates of a result. */
  function Firsts(messages: seq<Message>): seq<Message> {
    if messages == [] then []
    else
      var init, message := messages[..|messages| - 1], messages[|messages| - 1];
      if message.role.Tool? && ResultId(message) in Answered(init) then Firsts(init) else Firsts(init) + [message]
  }

  /** The messages that are no interrupted result. */
  function Without(messages: seq<Message>, answered: set<string>): seq<Message> {
    if messages == [] then []
    else
      var init, message := messages[..|messages| - 1], messages[|messages| - 1];
      if message.role.Tool? && ResultId(message) !in answered then Without(init, answered)
      else Without(init, answered) + [message]
  }

  lemma {:induction false} WithoutMissing(paired: seq<Message>, calls: seq<ToolCall>, answered: set<string>)
    ensures Without(paired + Missing(calls, answered), answered) == Without(paired, answered)
  {
    if calls == [] {
      assert paired + [] == paired;
    } else {
      var n := |calls| - 1;
      WithoutMissing(paired, calls[..n], answered);
      var rest := paired + Missing(calls[..n], answered);
      if calls[n].id !in answered {
        assert paired + Missing(calls, answered) == rest + [Interrupted(calls[n])];
        assert (rest + [Interrupted(calls[n])])[..|rest|] == rest;
      } else {
        assert paired + Missing(calls, answered) == rest;
      }
    }
  }

  /** Apart from interrupted results, what is sent is the input in its order, without later
      duplicates; and an interrupted result stands only for a call no result answers. */
  lemma {:induction false} PairKeepsOrder(messages: seq<Message>, answered: set<string>)
    requires Answered(messages) <= answered && OnlyAssistantsCall(messages)
    ensures Without(Pair(messages, answered).messages, answered) == Firsts(messages)
    ensures Pair(messages, answered).sent == Answered(messages)
  {
    if messages != [] {
      var n := |messages| - 1;
      var init, message := messages[..n], messages[n];
      assert messages == init + [message];
      AnsweredAppend(init, message);
      PairKeepsOrder(init, answered);
      var r := Pair(init, answered);
      if !(message.role.Tool? && ResultId(message) in r.sent) {
        var next := r.messages + [message];
        assert next[..|r.messages|] == r.messages;
        WithoutMissing(next, message.toolCalls, answered);
      }
    }
  }

  /** Message `j` of a request is followed by the interrupted results its calls need, in their order. */
  ghost predicate BlockAt(sent: seq<Message>, answered: set<string>, j: nat)
    requires j < |sent|
  {
    var missing := Missing(sent[j].toolCalls, answered);
    j + 1 + |missing| <= |sent| && sent[j + 1..j + 1 + |missing|] == missing
  }

  /** Message `i` is one of the interrupted results that follow the message of their calls. */
  ghost predicate InBlock(sent: seq<Message>, answered: set<string>, i: nat) {
    exists j :: 0 <= j < |sent| && BlockAt(sent, answered, j) && j < i <= j + |Missing(sent[j].toolCalls, answered)|
  }

  ghost predicate AllBlocks(sent: seq<Message>, answered: set<string>) {
    forall j :: 0 <= j < |sent| ==> BlockAt(sent, answered, j)
  }

  ghost predicate AllInBlocks(sent: seq<Message>, answered: set<string>) {
    forall i :: 0 <= i < |sent| && sent[i].role.Tool? && ResultId(sent[i]) !in answered ==> InBlock(sent, answered, i)
  }

  lemma {:induction false} MissingCallNothing(calls: seq<ToolCall>, answered: set<string>)
    ensures forall k :: 0 <= k < |Missing(calls, answered)| ==>
              Missing(calls, answered)[k].toolCalls == [] && Missing(calls, answered)[k].role.Tool?
  {
    if calls != [] {
      MissingCallNothing(calls[..|calls| - 1], answered);
    }
  }

  lemma BlockStays(sent: seq<Message>, more: seq<Message>, answered: set<string>, j: nat)
    requires j < |sent| && BlockAt(sent, answered, j)
    ensures BlockAt(sent + more, answered, j)
  {
    var n := |Missing(sent[j].toolCalls, answered)|;
    assert (sent + more)[j + 1..j + 1 + n] == sent[j + 1..j + 1 + n];
  }

  lemma NoBlocks(answered: set<string>)
    ensures AllBlocks([], answered) && AllInBlocks([], answered)
  {
  }

  /** Interrupted results stand right after the message that made their calls, and nowhere else. */
  lemma {:induction false} InterruptedFollow(messages: seq<Message>, answered: set<string>)
    requires Answered(messages) <= answered
    ensures var sent := Pair(messages, answered).messages;
      AllBlocks(sent, answered) && AllInBlocks(sent, answered)
  {
    hide AllBlocks, AllInBlocks;
    if messages == [] {
      NoBlocks(answered);
    } else {
      var n := |messages| - 1;
      var message := messages[n];
      assert messages == messages[..n] + [message];
      AnsweredAppend(messages[..n], message);
      InterruptedFollow(messages[..n], answered);
      var r, sent := Pair(messages[..n], answered), Pair(messages, answered).messages;
      if !(message.role.Tool? && ResultId(message) in r.sent) {
        BlocksGrow(r.messages, message, answered);
        assert sent == r.messages + ([message] + Missing(message.toolCalls, answered));
      }
    }
  }

  lemma BlocksGrow(before: seq<Message>, message: Message, answered: set<string>)
    requires AllBlocks(before, answered) && AllInBlocks(before, answered)
    requires message.role.Tool? ==> ResultId(message) in answered
    ensures var sent := before + ([message] + Missing(message.toolCalls, answered));
      AllBlocks(sent, answered) && AllInBlocks(sent, answered)
  {
    var missing := Missing(message.toolCalls, answered);
    var more := [message] + missing;
    var sent := before + more;
    MissingCallNothing(message.toolCalls, answered);
    assert sent[|before| + 1..|before| + 1 + |missing|] == missing;
    assert BlockAt(sent, answered, |before|);
    forall j | 0 <= j < |sent| ensures BlockAt(sent, answered, j) {
      if j < |before| {
        BlockStays(before, more, answered, j);
      } else if j > |before| {
        assert sent[j] == missing[j - |before| - 1];
      }
    }
    forall i | 0 <= i < |sent| && sent[i].role.Tool?
      && ResultId(sent[i]) !in answered
      ensures InBlock(sent, answered, i)
    {
      if i < |before| {
        assert before[i] == sent[i];
        var j :| 0 <= j < |before| && BlockAt(before, answered, j)
            && j < i <= j + |Missing(before[j].toolCalls, answered)|;
        BlockStays(before, more, answered, j);
      }
    }
  }

  /** What is sent is the named messages in their order, without later duplicates of a result, each
      followed at once by an interrupted result for every call of it that nothing answers. */
  lemma OrderIsKept(messages: seq<Message>, uuids: nat -> string)
    requires OnlyAssistantsCall(messages)
    ensures var named, sent := Name(messages, uuids).messages, Sanitize(messages, uuids);
      && Without(sent, Answered(named)) == Firsts(named)
      && AllBlocks(sent, Answered(named)) && AllInBlocks(sent, Answered(named))
  {
    var named := Name(messages, uuids).messages;
    NamedOnlyAssistantsCall(messages, uuids);
    PairKeepsOrder(named, Answered(named));
    InterruptedFollow(named, Answered(named));
  }

  // ---------- Twice is once ----------

  lemma NameIdentity(messages: seq<Message>, uuids: nat -> string)
    requires NonEmptyCalls(messages)
    requires forall k :: 0 <= k < |messages| && messages[k].role.Tool? ==> ResultId(messages[k]) != ""
    ensures Name(messages, uuids).messages == messages
  {
    NameKeeps(messages, uuids);
    var named := Name(messages, uuids).messages;
    forall k | 0 <= k < |messages| ensures named[k] == messages[k] {
      assert NamedAs(messages[k], named[k]);
      forall c | 0 <= c < |messages[k].toolCalls| ensures named[k].toolCalls[c] == messages[k].toolCalls[c] {
        assert CallNamedAs(messages[k].toolCalls[c], named[k].toolCalls[c]);
      }
    }
  }

  lemma {:induction false} MissingNone(calls: seq<ToolCall>, answered: set<string>)
    requires forall c :: 0 <= c < |calls| ==> calls[c].id in answered
    ensures Missing(calls, answered) == []
  {
    if calls != [] {
      MissingNone(calls[..|calls| - 1], answered);
    }
  }

  lemma {:induction false} PairIdentity(messages: seq<Message>, answered: set<string>)
    requires forall id :: ResultCount(messages, id) <= 1
    requires forall k, c :: 0 <= k < |messages| && 0 <= c < |messages[k].toolCalls| ==>
               messages[k].toolCalls[c].id in answered
    ensures Pair(messages, answered) == Paired(messages, Answered(messages))
  {
    if messages != [] {
      var n := |messages| - 1;
      var init, message := messages[..n], messages[n];
      assert messages == init + [message];
      forall id ensures ResultCount(init, id) <= 1 {
        assert ResultCount(messages, id) <= 1;
      }
      PairIdentity(init, answered);
      AnsweredAppend(init, message);
      MissingNone(message.toolCalls, answered);
      if message.role.Tool? {
        AnsweredCount(init, ResultId(message));
        assert ResultCount(messages, ResultId(message)) <= 1;
      }
    }
  }

  lemma {:induction false} SentResultsNamed(messages: seq<Message>, answered: set<string>)
    requires NonEmptyCalls(messages)
    requires forall k :: 0 <= k < |messages| && messages[k].role.Tool? ==> ResultId(messages[k]) != ""
    ensures forall m :: m in Pair(messages, answered).messages && m.role.Tool? ==> ResultId(m) != ""
  {
    if messages != [] {
      var n := |messages| - 1;
      assert forall k :: 0 <= k < n ==> messages[..n][k] == messages[k];
      SentResultsNamed(messages[..n], answered);
      MissingNamed(messages[n].toolCalls, answered);
    }
  }

  lemma {:induction false} MissingNamed(calls: seq<ToolCall>, answered: set<string>)
    requires forall c :: 0 <= c < |calls| ==> calls[c].id != ""
    ensures forall m :: m in Missing(calls, answered) ==> ResultId(m) != ""
  {
    if calls != [] {
      MissingNamed(calls[..|calls| - 1], answered);
    }
  }

  lemma NamedResultsHaveIds(messages: seq<Message>, uuids: nat -> string)
    requires OnlyAssistantsCall(messages) && Fresh(messages, uuids)
    ensures var named := Name(messages, uuids).messages;
      forall k :: 0 <= k < |named| && named[k].role.Tool? ==> ResultId(named[k]) != ""
  {
    NamesResults(messages, uuids);
    NameKeeps(messages, uuids);
    var named := Name(messages, uuids).messages;
    forall k | 0 <= k < |named| && named[k].role.Tool? ensures ResultId(named[k]) != "" {
      assert NamedAs(messages[k], named[k]);
    }
  }

  lemma SanitizeIsIdempotent(messages: seq<Message>, uuids: nat -> string, others: nat -> string)
    requires DistinctCalls(messages) && OnlyAssistantsCall(messages) && Fresh(messages, uuids)
    ensures Sanitize(Sanitize(messages, uuids), others) == Sanitize(messages, uuids)
  {
    hide Name, Fresh, DistinctCalls, OnlyAssistantsCall;
    var named, sent := Name(messages, uuids).messages, Sanitize(messages, uuids);
    NamedAreDistinct(messages, uuids);
    NamedResultsHaveIds(messages, uuids);
    SentResultsNamed(named, Answered(named));
    forall id
      ensures CallCount(sent, id) <= 1 && (CallCount(sent, id) == 1 ==> ResultCount(sent, id) == 1)
        && ResultCount(sent, id) <= 1
    {
      EveryCallHasOneResult(messages, uuids, id);
    }
    EveryCallHasOneResult(messages, uuids, "");
    NonEmptyFromCounts(sent);
    NameIdentity(sent, others);
    forall k, c | 0 <= k < |sent| && 0 <= c < |sent[k].toolCalls| ensures sent[k].toolCalls[c].id in Answered(sent) {
      var id := sent[k].toolCalls[c].id;
      CallCounted(sent, k, c);
      AnsweredCount(sent, id);
    }
    PairIdentity(sent, Answered(sent));
  }

  // ---------- Results without an id ----------

  lemma {:induction false} NameMore(messages: seq<Message>, more: Message, uuids: nat -> string)
    requires more.role.Tool? && ResultId(more) == "" && Name(messages, uuids).pending != []
    ensures var before, after := Name(messages, uuids), Name(messages + [more], uuids);
      && after.messages == before.messages + [more.(toolCallId := Some(before.pending[0]))]
      && after.pending == before.pending[1..]
  {
    assert (messages + [more])[..|messages|] == messages;
  }

  /** Results without ids that follow calls nobody else waits for answer those calls in order, also
      calls whose ids were generated. */
  lemma {:induction false} NamelessAnswerInOrder(before: seq<Message>, caller: Message, results: seq<Message>,
        uuids: nat -> string)
    requires caller.role.Assistant? && Name(before, uuids).pending == []
    requires |results| <= |caller.toolCalls|
    requires forall k :: 0 <= k < |results| ==> results[k].role.Tool? && ResultId(results[k]) == ""
    ensures var named := Name(before + [caller] + results, uuids);
      var calls := named.messages[|before|].toolCalls;
      && CallsNamedAs(caller.toolCalls, calls)
      && named.pending == IdList(calls)[|results|..]
      && forall k :: 0 <= k < |results| ==> named.messages[|before| + 1 + k].toolCallId == Some(calls[k].id)
    decreases |results|
  {
    if results == [] {
      assert before + [caller] + [] == before + [caller] && (before + [caller])[..|before|] == before;
      assert (before + [caller])[|before|] == caller;
      NameCallsKeeps(caller.toolCalls, Name(before, uuids).next, uuids);
    } else {
      var n := |results| - 1;
      NamelessAnswerInOrder(before, caller, results[..n], uuids);
      var all := before + [caller] + results[..n];
      assert before + [caller] + results == all + [results[n]];
      NameMore(all, results[n], uuids);
    }
  }
}
