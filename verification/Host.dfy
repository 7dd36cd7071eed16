/** The service host's calls: each call id runs once while it is remembered, a call cancelled
    before it arrived does not run, and finished calls are forgotten within bounds. */
module Host {
  import opened Messages

  /** Call ids in their order; it only breaks ties between calls finished at one time. */
  type CallId = nat

  datatype Request = Request(service: string, name: string, key: string, init: string, args: string)

  datatype Outcome = Returned(payload: string) | Cancelled

  /** A call cancelled before it arrived has no request. `finished` is when its task ended. */
  datatype Call = Call(request: Option<Request>, finished: Option<real>, outcome: Option<Outcome>)

  const KEEP_FINISHED_S: real := 600.0
  const MAX_FINISHED := 1024

  // ---------- Forgetting ----------

  function FinishedIds(calls: map<CallId, Call>): set<CallId> {
    set id | id in calls && calls[id].finished.Some?
  }

  /** The order finished calls are listed in: by time, then by id. */
  predicate Earlier(calls: map<CallId, Call>, a: CallId, b: CallId)
    requires a in FinishedIds(calls) && b in FinishedIds(calls)
  {
    var x, y := calls[a].finished.value, calls[b].finished.value;
    x < y || (x == y && a < b)
  }

  function Before(calls: map<CallId, Call>, id: CallId): set<CallId>
    requires id in FinishedIds(calls)
  {
    set a | a in FinishedIds(calls) && Earlier(calls, a, id)
  }

  /** A finished call past its time, or among the oldest past the limit. */
  predicate Forgettable(calls: map<CallId, Call>, now: real, id: CallId)
    requires id in FinishedIds(calls)
  {
    calls[id].finished.value < now - KEEP_FINISHED_S || |Before(calls, id)| < |FinishedIds(calls)| - MAX_FINISHED
  }

  function Forgotten(calls: map<CallId, Call>, now: real): set<CallId> {
    set id | id in FinishedIds(calls) && Forgettable(calls, now, id)
  }

  lemma EarlierHasFewer(calls: map<CallId, Call>, a: CallId, b: CallId)
    requires a in FinishedIds(calls) && b in FinishedIds(calls) && Earlier(calls, a, b)
    ensures |Before(calls, a)| < |Before(calls, b)|
  {
    assert a in Before(calls, b) && a !in Before(calls, a);
    assert Before(calls, a) < Before(calls, b);
    Fewer(Before(calls, a), Before(calls, b));
  }

  lemma {:induction false} Fewer(a: set<CallId>, b: set<CallId>)
    requires a < b
    ensures |a| < |b|
  {
    var x :| x in b && x !in a;
    Within(a, b - {x});
  }

  lemma {:induction false} Within(a: set<CallId>, b: set<CallId>)
    requires a <= b
    ensures |a| <= |b|
  {
    if a != {} {
      var x :| x in a;
      Within(a - {x}, b - {x});
    }
  }

  /** Nothing kept finished before anything dropped. */
  lemma KeptAreLater(calls: map<CallId, Call>, now: real, dropped: CallId, kept: CallId)
    requires dropped in Forgotten(calls, now)
    requires kept in FinishedIds(calls) && kept !in Forgotten(calls, now)
    ensures Earlier(calls, dropped, kept)
  {
    if !Earlier(calls, dropped, kept) && dropped != kept {
      EarlierHasFewer(calls, kept, dropped);
    }
  }

  /** Part way through the listing: `left` is to come, and of the `index` calls before it exactly
      the forgettable ones are dropped. */
  ghost predicate Swept(calls: map<CallId, Call>, now: real, left: set<CallId>, dropped: set<CallId>, index: nat) {
    && SweptSets(calls, now, left, dropped, index)
    && |dropped| == Max(Min(index, |FinishedIds(calls)| - MAX_FINISHED), |Expired(calls, now) - left|)
  }

  ghost predicate SweptSets(calls: map<CallId, Call>, now: real, left: set<CallId>, dropped: set<CallId>,
        index: nat) {
    && left <= FinishedIds(calls)
    && index + |left| == |FinishedIds(calls)|
    && (forall a, b :: a in FinishedIds(calls) && a !in left && b in left ==> Earlier(calls, a, b))
    && dropped == Forgotten(calls, now) - left
  }

  function Min(a: int, b: int): int {
    if a < b then a else b
  }

  function Max(a: int, b: int): int {
    if a > b then a else b
  }

  function Expired(calls: map<CallId, Call>, now: real): set<CallId> {
    set id | id in FinishedIds(calls) && calls[id].finished.value < now - 600.0
  }

  /** Calls in the listing before an expired one are expired. */
  lemma ExpiredFirst(calls: map<CallId, Call>, now: real, left: set<CallId>, id: CallId)
    requires left <= FinishedIds(calls) && id in left && id in Expired(calls, now)
    requires forall a, b :: a in FinishedIds(calls) && a !in left && b in left ==> Earlier(calls, a, b)
    ensures Expired(calls, now) - left == FinishedIds(calls) - left
    ensures |FinishedIds(calls) - left| == |FinishedIds(calls)| - |left|
  {
  }

  /** How many of the listing are expired before `id` and after it. */
  lemma ExpiredOne(calls: map<CallId, Call>, now: real, left: set<CallId>, id: CallId)
    requires left <= FinishedIds(calls) && id in left
    requires forall a, b :: a in FinishedIds(calls) && a !in left && b in left ==> Earlier(calls, a, b)
    ensures var before := |FinishedIds(calls)| - |left|;
      && |Expired(calls, now) - left| <= before
      && (id in Expired(calls, now) ==>
            |Expired(calls, now) - left| == before && |Expired(calls, now) - (left - {id})| == before + 1)
      && (id !in Expired(calls, now) ==>
            |Expired(calls, now) - (left - {id})| == |Expired(calls, now) - left|)
  {
    Within(Expired(calls, now) - left, FinishedIds(calls) - left);
    assert |FinishedIds(calls) - left| == |FinishedIds(calls)| - |left|;
    if id in Expired(calls, now) {
      ExpiredFirst(calls, now, left, id);
      assert Expired(calls, now) - (left - {id}) == Expired(calls, now) - left + {id};
    } else {
      assert Expired(calls, now) - (left - {id}) == Expired(calls, now) - left;
    }
  }

  lemma SweepSets(calls: map<CallId, Call>, now: real, left: set<CallId>, dropped: set<CallId>, index: nat, id: CallId)
    returns (goes: bool)
    requires SweptSets(calls, now, left, dropped, index)
    requires id in left && forall other :: other in left && other != id ==> Earlier(calls, id, other)
    ensures left <= FinishedIds(calls) && index == |FinishedIds(calls)| - |left|
    ensures forall a, b :: a in FinishedIds(calls) && a !in left && b in left ==> Earlier(calls, a, b)
    ensures id in FinishedIds(calls) && id !in dropped
    ensures goes == Forgettable(calls, now, id)
    ensures goes <==> id in Expired(calls, now) || index < |FinishedIds(calls)| - MAX_FINISHED
    ensures Forgettable(calls, now, id) <==>
              calls[id].finished.value < now - KEEP_FINISHED_S || index < |FinishedIds(calls)| - MAX_FINISHED
    ensures SweptSets(calls, now, left - {id}, if Forgettable(calls, now, id) then dropped + {id} else dropped,
                      index + 1)
  {
    RankIs(calls, left, id);
    goes := Forgettable(calls, now, id);
  }

  lemma CountOne(dropped: int, index: int, excess: int, expired: int, next: int, isExpired: bool, goes: bool)
    requires dropped == Max(Min(index, excess), expired) && expired <= index
    requires if isExpired then expired == index && next == index + 1 else next == expired
    requires goes <==> isExpired || index < excess
    ensures dropped + (if goes then 1 else 0) == Max(Min(index + 1, excess), next)
  {
  }

  lemma SweepOne(calls: map<CallId, Call>, now: real, left: set<CallId>, dropped: set<CallId>, index: nat, id: CallId)
    requires Swept(calls, now, left, dropped, index)
    requires id in left && forall other :: other in left && other != id ==> Earlier(calls, id, other)
    ensures id in calls && calls[id].finished.Some? && id !in dropped
    ensures Forgettable(calls, now, id) <==>
              calls[id].finished.value < now - KEEP_FINISHED_S || index < |FinishedIds(calls)| - MAX_FINISHED
    ensures Swept(calls, now, left - {id}, if Forgettable(calls, now, id) then dropped + {id} else dropped, index + 1)
  {
    var goes := SweepSets(calls, now, left, dropped, index, id);
    ExpiredOne(calls, now, left, id);
    hide Expired, SweptSets, Forgettable, Earlier, Max, Min;
    CountOne(|dropped|, index, |FinishedIds(calls)| - MAX_FINISHED, |Expired(calls, now) - left|,
        |Expired(calls, now) - (left - {id})|, id in Expired(calls, now), goes);
    var next := if goes then dropped + {id} else dropped;
    assert |next| == |dropped| + if goes then 1 else 0;
  }

  /** The sweep begins with nothing dropped. */
  lemma SweepStarts(calls: map<CallId, Call>, now: real)
    ensures Swept(calls, now, FinishedIds(calls), {}, 0)
  {
    assert Expired(calls, now) - FinishedIds(calls) == {};
  }

  lemma SweepEnds(calls: map<CallId, Call>, now: real, dropped: set<CallId>, index: nat)
    requires Swept(calls, now, {}, dropped, index)
    ensures dropped == Forgotten(calls, now)
    ensures |FinishedIds(calls - dropped)| == Min(|FinishedIds(calls) - Expired(calls, now)|, 1024)
    ensures forall id :: id in Expired(calls, now) ==> id in dropped
  {
    assert FinishedIds(calls - dropped) == FinishedIds(calls) - dropped;
    assert Expired(calls, now) - {} == Expired(calls, now);
    assert |FinishedIds(calls) - Expired(calls, now)| == |FinishedIds(calls)| - |Expired(calls, now)|;
  }

  // ---------- Histories ----------

  datatype Event = Started(id: CallId) | Tombstoned(id: CallId) | Ended(id: CallId) | Forgot(id: CallId)

  /** What last happened to a call id. */
  function Last(history: seq<Event>, id: CallId): Option<Event> {
    if history == [] then None
    else if history[|history| - 1].id == id then Some(history[|history| - 1])
    else Last(history[..|history| - 1], id)
  }

  /** Whether `event` may come after `last`. */
  predicate MayFollow(last: Option<Event>, event: Event) {
    match event
    case Started(_) => last.None? || last.value.Forgot?
    case Tombstoned(_) => last.None? || last.value.Forgot?
    case Ended(_) => last.Some? && last.value.Started?
    case Forgot(_) => last.Some? && (last.value.Ended? || last.value.Tombstoned?)
  }

  ghost predicate Orderly(history: seq<Event>) {
    forall k :: 0 <= k < |history| ==> OrderlyAt(history, k)
  }

  ghost predicate OrderlyAt(history: seq<Event>, k: nat)
    requires k < |history|
  {
    MayFollow(Last(history[..k], history[k].id), history[k])
  }

  lemma {:induction false} LastIs(history: seq<Event>, id: CallId, k: nat)
    requires k < |history| && history[k].id == id
    requires forall j :: k < j < |history| ==> history[j].id != id
    ensures Last(history, id) == Some(history[k])
  {
    if k < |history| - 1 {
      LastIs(history[..|history| - 1], id, k);
    }
  }

  lemma {:induction false} LastAt(history: seq<Event>, id: CallId) returns (k: nat)
    requires Last(history, id).Some?
    ensures k < |history| && history[k] == Last(history, id).value && history[k].id == id
    ensures forall j :: k < j < |history| ==> history[j].id != id
  {
    if history[|history| - 1].id == id {
      k := |history| - 1;
    } else {
      k := LastAt(history[..|history| - 1], id);
    }
  }

  /** Between a start or a cancel of an absent call and its next start, it was forgotten. So a body
      starts once at most while its id is remembered, and one cancelled before it arrived not at all. */
  lemma {:induction false} StartsOnce(history: seq<Event>, id: CallId, i: nat, j: nat) returns (k: nat)
    requires Orderly(history) && i < j < |history|
    requires (history[i] == Started(id) || history[i] == Tombstoned(id)) && history[j] == Started(id)
    ensures i < k < j && history[k] == Forgot(id)
  {
    assert OrderlyAt(history, j);
    if Last(history[..j], id).None? {
      SomethingHappened(history[..j], id, i);
    }
    k := LastAt(history[..j], id);
    assert history[..j][i] == history[i];
  }

  lemma {:induction false} SomethingHappened(history: seq<Event>, id: CallId, i: nat)
    requires i < |history| && history[i].id == id
    ensures Last(history, id).Some?
  {
    if i < |history| - 1 && history[|history| - 1].id != id {
      SomethingHappened(history[..|history| - 1], id, i);
    }
  }

  /** A call that started ended before it was forgotten: a running call never is. */
  lemma {:induction false} RunningIsNotForgotten(history: seq<Event>, id: CallId, i: nat, j: nat) returns (k: nat)
    requires Orderly(history) && i < j < |history| && history[i] == Started(id) && history[j] == Forgot(id)
    ensures i < k < j && history[k] == Ended(id)
    decreases j
  {
    assert OrderlyAt(history, j);
    var m := LastAt(history[..j], id);
    assert history[..j][m] == history[m] && history[..j][i] == history[i];
    if history[m].Ended? {
      k := m;
    } else {
      assert OrderlyAt(history, m);
      SomethingHappened(history[..m], id, i);
      var f := LastAt(history[..m], id);
      assert history[..m][f] == history[f] && history[..m][i] == history[i];
      k := RunningIsNotForgotten(history, id, i, f);
    }
  }

  // ---------- The host ----------

  datatype Reply = NotFound | Conflict | Waiting

  class Host {
    const services: map<string, set<string>>
    var calls: map<CallId, Call>
    var now: real
    ghost var history: seq<Event>

    /** The calls remembered are those the history last started, ended or cancelled early. */
    ghost predicate Valid()
      reads this
    {
      && Orderly(history)
      && AllAgree(calls, history)
    }

    constructor (services: map<string, set<string>>, now: real)
      ensures Valid() && calls == map[] && history == [] && this.services == services && this.now == now
    {
      this.services, this.now, calls, history := services, now, map[], [];
    }

    method Forget(id: CallId)
      requires Valid() && id in FinishedIds(calls)
      modifies this`calls, this`history
      ensures Valid() && calls == old(calls) - {id} && history == old(history) + [Forgot(id)]
    {
      ForgetOne(calls, history, id);
      calls := calls - {id};
      history := history + [Forgot(id)];
    }

    /** Drop finished calls past their time, then the oldest past the limit: of the others, all are kept
        up to the limit. */
    method ForgetFinished()
      requires Valid()
      modifies this`calls, this`history
      ensures Valid()
      ensures calls == old(calls) - Forgotten(old(calls), now)
      ensures |FinishedIds(calls)| == Min(|FinishedIds(old(calls)) - Expired(old(calls), now)|, 1024)
      ensures forall id :: id in Expired(old(calls), now) ==> id !in calls
      ensures OnlyForgets(old(history), history, Forgotten(old(calls), now))
    {
      var before := calls;
      var left := FinishedIds(calls);
      var excess := |left| - MAX_FINISHED;
      var expired := now - KEEP_FINISHED_S;
      ghost var dropped: set<CallId> := {};
      var index := 0;
      SweepStarts(before, now);
      hide Swept, Expired, Forgotten, Forgettable;
      while left != {}
        invariant Valid()
        invariant Swept(before, now, left, dropped, index) && calls == before - dropped
        invariant OnlyForgets(old(history), history, dropped)
        decreases left
      {
        var id := Earliest(before, left);
        SweepOne(before, now, left, dropped, index, id);
        if calls[id].finished.value < expired || index < excess {
          ForgetsOneMore(old(history), history, dropped, id);
          DropsOneMore(before, dropped, id);
          Forget(id);
          dropped := dropped + {id};
        }
        left := left - {id};
        index := index + 1;
      }
      SweepEnds(before, now, dropped, index);
    }

    /** A request: it starts its call, joins the one of the same id, or is refused. */
    method Arrive(id: CallId, request: Request) returns (reply: Reply)
      requires Valid()
      modifies this`calls, this`history
      ensures Valid() && old(history) <= history
      ensures reply.NotFound? <==> request.service !in services || request.name !in services[request.service]
      ensures reply.Conflict? ==>
                id in old(calls) && old(calls)[id].request.Some? && old(calls)[id].request.value != request
      ensures reply.NotFound? || reply.Conflict? || id in old(calls) ==> unchanged(this)
      ensures reply.Waiting? ==> id in calls && (calls[id].request == Some(request) || calls[id].request.None?)
      ensures reply.Waiting? && id !in old(calls) ==>
                && calls == (old(calls) - Forgotten(old(calls), now))[id := Call(Some(request), None, None)]
                && |history| > 0 && history[|history| - 1] == Started(id)
    {
      if request.service !in services || request.name !in services[request.service] {
        return NotFound;
      }
      if id !in calls {
        ForgetFinished();
        assert Agrees(calls, history, id);
        AddOne(calls, history, id, Call(Some(request), None, None), Started(id));
        calls := calls[id := Call(Some(request), None, None)];
        history := history + [Started(id)];
      } else if calls[id].request.Some? && calls[id].request.value != request {
        return Conflict;
      }
      reply := Waiting;
    }

    /** A body ended, by itself or cancelled: what everyone waiting for the call gets. */
    method Finish(id: CallId, outcome: Outcome)
      requires Valid() && id in calls && calls[id].finished.None?
      modifies this`calls, this`history
      ensures Valid()
      ensures calls == old(calls)[id := old(calls)[id].(finished := Some(now), outcome := Some(outcome))]
      ensures history == old(history) + [Ended(id)]
    {
      assert Agrees(calls, history, id);
      AddOne(calls, history, id, calls[id].(finished := Some(now), outcome := Some(outcome)), Ended(id));
      calls := calls[id := calls[id].(finished := Some(now), outcome := Some(outcome))];
      history := history + [Ended(id)];
    }

    /** A cancel: a running call's task is stopped (it then finishes), and an id that has not
        arrived is remembered so that it will not run. */
    method Cancel(id: CallId) returns (running: bool)
      requires Valid()
      modifies this`calls, this`history
      ensures Valid() && old(history) <= history
      ensures running <==> id in old(calls) && old(calls)[id].finished.None?
      ensures id in old(calls) ==> unchanged(this)
      ensures id !in old(calls) ==>
                && calls == (old(calls) - Forgotten(old(calls), now))[id := Call(None, Some(now), Some(Cancelled))]
                && |history| > 0 && history[|history| - 1] == Tombstoned(id)
    {
      if id !in calls {
        ForgetFinished();
        assert Agrees(calls, history, id);
        AddOne(calls, history, id, Call(None, Some(now), Some(Cancelled)), Tombstoned(id));
        calls := calls[id := Call(None, Some(now), Some(Cancelled))];
        history := history + [Tombstoned(id)];
        return false;
      }
      running := calls[id].finished.None?;
    }

    method Wait(secs: real)
      requires Valid() && secs >= 0.0
      modifies this`now
      ensures Valid() && now == old(now) + secs
    {
      now := now + secs;
    }
  }

  ghost predicate Agrees(calls: map<CallId, Call>, history: seq<Event>, id: CallId) {
    match Last(history, id)
    case None => id !in calls
    case Some(Forgot(_)) => id !in calls
    case Some(Started(_)) =>
      id in calls && calls[id].finished.None? && calls[id].request.Some? && calls[id].outcome.None?
    case Some(Ended(_)) =>
      id in calls && calls[id].finished.Some? && calls[id].request.Some? && calls[id].outcome.Some?
    case Some(Tombstoned(_)) =>
      id in calls && calls[id].finished.Some? && calls[id].request.None? && calls[id].outcome == Some(Cancelled)
  }

  /** `to` goes on from `from` by forgetting calls of `ids` alone. */
  ghost predicate OnlyForgets(from: seq<Event>, to: seq<Event>, ids: set<CallId>) {
    from <= to && forall k :: |from| <= k < |to| ==> to[k].Forgot? && to[k].id in ids
  }

  lemma ForgetsOneMore(from: seq<Event>, to: seq<Event>, ids: set<CallId>, id: CallId)
    requires OnlyForgets(from, to, ids)
    ensures OnlyForgets(from, to + [Forgot(id)], ids + {id})
  {
  }

  lemma DropsOneMore(calls: map<CallId, Call>, dropped: set<CallId>, id: CallId)
    ensures calls - dropped - {id} == calls - (dropped + {id})
  {
  }

  ghost predicate AllAgree(calls: map<CallId, Call>, history: seq<Event>) {
    forall id :: Agrees(calls, history, id)
  }

  lemma AddEvent(history: seq<Event>, event: Event, after: seq<Event>)
    requires Orderly(history) && MayFollow(Last(history, event.id), event) && after == history + [event]
    ensures Orderly(after)
    ensures Last(after, event.id) == Some(event)
    ensures forall id :: id != event.id ==> Last(after, id) == Last(history, id)
  {
    assert after[..|history|] == history;
    forall k | 0 <= k < |after| ensures OrderlyAt(after, k) {
      assert k < |history| ==> OrderlyAt(history, k) && after[..k] == history[..k];
    }
  }

  lemma AddOne(calls: map<CallId, Call>, history: seq<Event>, id: CallId, call: Call, event: Event)
    requires Orderly(history) && AllAgree(calls, history)
    requires event.id == id && MayFollow(Last(history, id), event) && !event.Forgot?
    requires call.finished.Some? <==> !event.Started?
    requires call.request.Some? <==> !event.Tombstoned?
    requires if event.Started? then call.outcome.None? else if event.Tombstoned? then call.outcome == Some(Cancelled)
        else call.outcome.Some?
    ensures Orderly(history + [event])
    ensures AllAgree(calls[id := call], history + [event])
  {
    AddEvent(history, event, history + [event]);
    var calls', history' := calls[id := call], history + [event];
    forall other ensures Agrees(calls', history', other) {
      assert Agrees(calls, history, other);
    }
  }

  lemma ForgetOne(calls: map<CallId, Call>, history: seq<Event>, id: CallId)
    requires Orderly(history) && AllAgree(calls, history)
    requires id in FinishedIds(calls)
    ensures Orderly(history + [Forgot(id)])
    ensures AllAgree(calls - {id}, history + [Forgot(id)])
  {
    assert Agrees(calls, history, id);
    AddEvent(history, Forgot(id), history + [Forgot(id)]);
    var calls', history' := calls - {id}, history + [Forgot(id)];
    forall other ensures Agrees(calls', history', other) {
      assert Agrees(calls, history, other);
    }
  }

  /** The first finished call of `ids`, in the listing's order. */
  method Earliest(calls: map<CallId, Call>, ids: set<CallId>) returns (first: CallId)
    requires ids != {} && ids <= FinishedIds(calls)
    ensures first in ids && forall id :: id in ids && id != first ==> Earlier(calls, first, id)
  {
    var rest := ids;
    first :| first in rest;
    rest := rest - {first};
    while rest != {}
      invariant first in ids && rest <= ids
      invariant forall id :: id in ids && id !in rest && id != first ==> Earlier(calls, first, id)
      decreases rest
    {
      var id :| id in rest;
      if Earlier(calls, id, first) {
        first := id;
      }
      rest := rest - {id};
    }
  }

  /** The first of what is left has exactly the listed ones before it. */
  lemma RankIs(calls: map<CallId, Call>, left: set<CallId>, id: CallId)
    requires left <= FinishedIds(calls) && id in left
    requires forall other :: other in left && other != id ==> Earlier(calls, id, other)
    requires forall a, b :: a in FinishedIds(calls) - left && b in left ==> Earlier(calls, a, b)
    ensures Before(calls, id) == FinishedIds(calls) - left
    ensures |Before(calls, id)| == |FinishedIds(calls)| - |left|
  {
    assert Before(calls, id) == FinishedIds(calls) - left;
  }

  // ---------- Pushing ----------

  /** Failures since the last success. */
  function FailuresSince(log: seq<bool>): nat {
    if log == [] || log[|log| - 1] then 0 else 1 + FailuresSince(log[..|log| - 1])
  }

  /** The storage push: one running at most. `completed` counts the calls that have completed,
      `taken` those the running push started after, `covered` those of the last push that
      succeeded; `log` has each push's success. */
  class Pusher {
    var pending: bool
    var due: bool
    var pushing: bool
    var failures: nat
    ghost var completed: nat
    ghost var taken: nat
    ghost var covered: nat
    ghost var log: seq<bool>

    /** Outside a push, a completed call that no successful push covers is pending. */
    ghost predicate Valid()
      reads this
    {
      && covered <= taken <= completed
      && (pushing && completed > taken ==> pending)
      && (!pushing && completed > covered ==> pending)
      && failures == FailuresSince(log)
    }

    constructor ()
      ensures Valid() && !pending && !due && !pushing && completed == 0 && log == []
    {
      pending, due, pushing, failures := false, false, false, 0;
      completed, taken, covered, log := 0, 0, 0, [];
    }

    method Complete()
      requires Valid()
      modifies this
      ensures Valid() && completed == old(completed) + 1 && pending && due
      ensures pushing == old(pushing) && failures == old(failures) && covered == old(covered) && log == old(log)
    {
      completed := completed + 1;
      pending := true;
      due := true;
    }

    /** The pusher wakes when a push is due or its interval is over; what is not covered is pushed. */
    method Wake() returns (pushes: bool)
      requires Valid() && !pushing
      modifies this
      ensures Valid() && pushes == pushing
      ensures old(completed) > old(covered) ==> pushes && taken == completed
      ensures pushes == (old(due) || old(pending)) && !pending && !due && failures == old(failures)
      ensures completed == old(completed) && covered == old(covered) && log == old(log)
    {
      pushes := due || pending;
      if pushes {
        due := false;
        Begin();
      }
    }

    method Begin()
      requires Valid() && !pushing
      modifies this`pending, this`pushing, this`taken
      ensures Valid() && pushing && !pending && taken == completed
    {
      pending := false;
      pushing := true;
      taken := completed;
    }

    method End(success: bool)
      requires Valid() && pushing
      modifies this
      ensures Valid() && !pushing && log == old(log) + [success]
      ensures success ==> covered == old(taken) && failures == 0 && pending == old(pending)
      ensures !success ==> covered == old(covered) && failures == old(failures) + 1 && pending
      ensures completed == old(completed) && due == old(due)
    {
      assert (log + [success])[..|log|] == log;
      log := log + [success];
      if success {
        covered := taken;
        failures := 0;
      } else {
        pending := true;
        failures := failures + 1;
      }
      pushing := false;
    }
  }
}
