/** The thread workflow's inbox: messages are signalled at any await, drained into turns, carried
    across history rotation, and never left behind by a workflow that stops. */
module Workflow {
  import opened Messages

  type Inbound = nat

  /** What became of messages taken from the inbox together: handed to one turn, dropped with a run
      that failed to start, or undelivered because the thread was stopped before a turn. */
  datatype Batch =
    | Turned(messages: seq<Inbound>)
    | Dropped(messages: seq<Inbound>)
    | Undelivered(messages: seq<Inbound>)

  function FlatAll(batches: seq<Batch>): seq<Inbound> {
    if batches == [] then [] else FlatAll(batches[..|batches| - 1]) + batches[|batches| - 1].messages
  }

  function DroppedIn(batches: seq<Batch>): nat {
    if batches == [] then 0
    else DroppedIn(batches[..|batches| - 1]) + if batches[|batches| - 1].Dropped? then 1 else 0
  }

  datatype RunOutcome = Completed | Exhausted | FailedRun | CancelledRun

  datatype ThreadOutcome = Stopped | CancelledThread

  /** How a turn ended. */
  datatype Turn = Raises | Compacts | Reminds | Says(stopReason: string) | Calls(raises: bool, terminal: bool)

  /** The batches after `from`: turns, and at most one undelivered at the very end. */
  ghost predicate OnlyTurnsBut(from: seq<Batch>, to: seq<Batch>, mayStop: bool) {
    && from <= to
    && forall k :: |from| <= k < |to| ==> to[k].Turned? || (mayStop && k == |to| - 1 && to[k].Undelivered?)
  }

  /** After `from`, messages are left undelivered in the last batch alone, and only when stopped. */
  ghost predicate StoppedAtEnd(from: seq<Batch>, to: seq<Batch>, stopped: bool) {
    && from <= to
    && forall k :: |from| <= k < |to| && to[k].Undelivered? ==> k == |to| - 1 && stopped
  }

  /** The batch at `first` is these messages, and later ones are empty. */
  ghost predicate OnlyFirst(first: nat, batches: seq<Batch>, messages: seq<Inbound>) {
    && first < |batches| && batches[first].messages == messages
    && forall k :: first < k < |batches| ==> batches[k].messages == []
  }

  lemma RunsOn(from: seq<Batch>, before: seq<Batch>, to: seq<Batch>, stopped: bool)
    requires StoppedAtEnd(from, before, false) && StoppedAtEnd(before, to, stopped)
    ensures StoppedAtEnd(from, to, stopped)
  {
  }

  lemma {:induction false} DroppedGrows(from: seq<Batch>, to: seq<Batch>)
    requires from <= to
    ensures DroppedIn(from) <= DroppedIn(to)
  {
    if |from| < |to| {
      DroppedGrows(from, to[..|to| - 1]);
    } else {
      assert from == to;
    }
  }

  /** With no run that failed to start and nothing left undelivered, all went to turns. */
  lemma {:induction false} NothingDropped(from: seq<Batch>, to: seq<Batch>)
    requires StoppedAtEnd(from, to, false) && DroppedIn(to) == DroppedIn(from)
    ensures OnlyTurnsBut(from, to, false)
  {
    if |from| < |to| {
      var before := to[..|to| - 1];
      DroppedGrows(from, before);
      NothingDropped(from, before);
      forall k | |from| <= k < |to| ensures to[k].Turned? {
        assert k < |to| - 1 ==> before[k] == to[k];
      }
    }
  }

  class ThreadWorkflow {
    const interleave: bool
    var inbox: seq<Inbound>
    /** The cancel signal was received. */
    var cancelled: bool
    /** The execution itself was cancelled: whatever it awaits raises. */
    var interrupted: bool
    /** How many messages will still be signalled. */
    var future: nat
    /** Every message signalled, in order, and what became of those taken from the inbox. */
    ghost var arrived: seq<Inbound>
    ghost var batches: seq<Batch>
    ghost var failedStarts: nat

    /** Nothing is lost, repeated or reordered. `waiting` is drained for a turn not called yet. */
    ghost predicate Keeps(waiting: seq<Inbound>)
      reads this
    {
      arrived == FlatAll(batches) + waiting + inbox && DroppedIn(batches) == failedStarts
    }

    /** What awaiting may do: messages arrive behind the others, and the thread may be stopped. */
    twostate predicate Goes()
      reads this
    {
      && old(arrived) <= arrived && old(batches) <= batches
      && future <= old(future) && |arrived| - |old(arrived)| == old(future) - future
      && (old(cancelled) ==> cancelled) && (old(interrupted) ==> interrupted) && old(failedStarts) <= failedStarts
    }

    constructor (interleave: bool, future: nat)
      ensures Keeps([]) && inbox == [] && arrived == [] && batches == [] && failedStarts == 0
      ensures !cancelled && !interrupted && this.future == future && this.interleave == interleave
    {
      this.interleave, this.future := interleave, future;
      inbox, cancelled, interrupted := [], false, false;
      arrived, batches, failedStarts := [], [], 0;
    }

    method Await(ghost waiting: seq<Inbound>)
      requires Keeps(waiting)
      modifies this`inbox, this`cancelled, this`interrupted, this`future, this`arrived
      ensures Keeps(waiting) && Goes()
      ensures |inbox| + future == |old(inbox)| + old(future)
    {
      var batch: seq<Inbound> :| |batch| <= future;
      Behind(FlatAll(batches), waiting, inbox, batch);
      inbox := inbox + batch;
      arrived := arrived + batch;
      future := future - |batch|;
      var cancel, interrupt: bool := *, *;
      cancelled, interrupted := cancelled || cancel, interrupted || interrupt;
    }

    /** What is queued joins the messages of the next turn, when the thread interleaves. */
    method Join(given: seq<Inbound>) returns (more: seq<Inbound>)
      requires Keeps(given)
      modifies this`inbox
      ensures Keeps(more) && |inbox| <= |old(inbox)|
      ensures given <= more && more + inbox == given + old(inbox)
      ensures if interleave then inbox == [] else more == given
    {
      more := given;
      if interleave && inbox != [] {
        more := given + inbox;
        inbox := [];
        Behind(FlatAll(batches), given, old(inbox), []);
      }
    }

    /** What was waiting becomes a batch of its own. */
    ghost method Settle(batch: Batch)
      requires Keeps(batch.messages)
      modifies this`batches, this`failedStarts
      ensures Keeps([]) && batches == old(batches) + [batch]
      ensures failedStarts == old(failedStarts) + if batch.Dropped? then 1 else 0
    {
      assert (batches + [batch])[..|batches|] == batches;
      Behind(FlatAll(batches), batch.messages, inbox, []);
      batches := batches + [batch];
      failedStarts := failedStarts + if batch.Dropped? then 1 else 0;
    }

    method Drain() returns (messages: seq<Inbound>)
      requires Keeps([])
      modifies this`inbox
      ensures messages == old(inbox) && inbox == [] && Keeps(messages)
    {
      messages := inbox;
      inbox := [];
    }

    /** One call of the turn activity. */
    method CallTurn(measures: bool, ghost waiting: seq<Inbound>) returns (turn: Turn)
      requires Keeps(waiting)
      modifies this`inbox, this`cancelled, this`interrupted, this`future, this`arrived
      ensures Keeps(waiting) && Goes()
      ensures |inbox| + future == |old(inbox)| + old(future)
      ensures turn.Compacts? ==> measures
    {
      Await(waiting);
      turn :| turn.Compacts? ==> measures;
    }

    /** One turn: called again with a summary stored, or after compaction, along with what arrived
        meanwhile, it is still one turn. */
    method RunTurn(messages: seq<Inbound>) returns (turn: Turn)
      requires Keeps(messages)
      modifies this`inbox, this`cancelled, this`interrupted, this`future, this`arrived, this`batches, this`failedStarts
      ensures Keeps([]) && Goes() && failedStarts == old(failedStarts)
      ensures |batches| == |old(batches)| + 1 && batches[|batches| - 1].Turned?
      ensures messages <= batches[|batches| - 1].messages
      ensures !interleave ==> batches[|batches| - 1].messages == messages
      ensures !turn.Compacts? || interrupted
      ensures |inbox| + future <= |old(inbox)| + old(future)
    {
      hide Keeps, FlatAll, DroppedIn;
      var given := messages;
      turn := CallTurn(true, given);
      var summary: bool := *;
      if turn.Compacts? && summary && !interrupted {
        given := AwaitMore(given);
        if !interrupted {
          turn := CallTurn(true, given);
        }
      }
      if turn.Compacts? && !interrupted {
        given := AwaitMore(given);
        if !interrupted {
          turn := CallTurn(false, given);
        }
      }
      Settle(Turned(given));
    }

    /** Wait for a summary, and take along what arrived when the thread interleaves. */
    method AwaitMore(given: seq<Inbound>) returns (more: seq<Inbound>)
      requires Keeps(given)
      modifies this`inbox, this`cancelled, this`interrupted, this`future, this`arrived
      ensures Keeps(more) && Goes() && given <= more && (!interleave ==> more == given)
      ensures |inbox| + future <= |old(inbox)| + old(future)
    {
      Await(given);
      more := given;
      if !interrupted {
        more := Join(given);
      }
    }

    /** Turns until the agent stops, its budget is spent, or it is stopped. A cancel that was there
        before its first turn leaves the drained messages undelivered; else every batch is a turn's,
        and the first of them starts with those messages. */
    method RunAgent(messages: seq<Inbound>, budget: nat) returns (outcome: RunOutcome)
      requires Keeps(messages) && budget >= 1 && !interrupted
      modifies this`inbox, this`cancelled, this`interrupted, this`future, this`arrived, this`batches, this`failedStarts
      ensures Keeps([]) && Goes() && failedStarts == old(failedStarts)
      ensures |inbox| + future <= |old(inbox)| + old(future)
      ensures old(cancelled) ==> batches == old(batches) + [Undelivered(messages)]
      ensures interleave || OnlyFirst(|old(batches)|, batches, messages)
      ensures !old(cancelled) ==> OnlyTurnsBut(old(batches), batches, false) && |batches| > |old(batches)|
                                  && messages <= batches[|old(batches)|].messages
      ensures outcome.CancelledRun? ==> cancelled || interrupted
    {
      hide Keeps, FlatAll, DroppedIn;
      if cancelled {
        Settle(Undelivered(messages));
        return CancelledRun;
      }
      var pending := messages;
      var remaining := budget;
      while remaining > 0 && !cancelled && !interrupted
        invariant Keeps(pending) && Goes() && failedStarts == old(failedStarts)
        invariant OnlyTurnsBut(old(batches), batches, false)
        invariant if remaining == budget
            then pending == messages && batches == old(batches) && !cancelled && !interrupted
                  else pending == [] && |batches| > |old(batches)| && messages <= batches[|old(batches)|].messages
        invariant interleave || remaining == budget || OnlyFirst(|old(batches)|, batches, messages)
        invariant |inbox| + future <= |old(inbox)| + old(future)
        decreases remaining
      {
        pending := Join(pending);
        var turn := RunTurn(pending);
        pending := [];
        remaining := remaining - 1;
        if interrupted {
          break;
        }
        match turn
        case Raises => return FailedRun;
        case Reminds => continue;
        case Says(reason) => return if reason != "" then Exhausted else Completed;
        case Calls(raises, terminal) =>
          Await([]);
          if interrupted {
            break;
          }
          if raises {
            return FailedRun;
          }
          if cancelled {
            return CancelledRun;
          }
          if terminal {
            return Completed;
          }
      }
      outcome := if cancelled || interrupted then CancelledRun else Exhausted;
    }

    /** Open, run and finalize one run for what is queued: exactly that batch is dropped when the
        run fails to start, and undelivered when the thread is stopped before its first turn. Unless the
        thread interleaves, that batch is all the run is given: what arrives meanwhile is kept for the
        next one. */
    method RunNext() returns (outcome: RunOutcome)
      requires Keeps([]) && inbox != [] && !interrupted
      modifies this`inbox, this`cancelled, this`interrupted, this`future, this`arrived, this`batches, this`failedStarts
      ensures Keeps([]) && Goes()
      ensures |inbox| + future <= old(future)
      ensures |batches| > |old(batches)| && old(inbox) <= batches[|old(batches)|].messages
      ensures failedStarts > old(failedStarts) ==> batches == old(batches) + [Dropped(old(inbox))]
      ensures failedStarts == old(failedStarts) ==> OnlyTurnsBut(old(batches), batches, cancelled || interrupted)
      ensures batches[|batches| - 1].Undelivered? ==> batches == old(batches) + [Undelivered(old(inbox))]
      ensures StoppedAtEnd(old(batches), batches, cancelled || interrupted)
      ensures interleave || OnlyFirst(|old(batches)|, batches, old(inbox))
    {
      hide Keeps, FlatAll, DroppedIn;
      var messages := Drain();
      Await(messages);
      if interrupted {
        Settle(Undelivered(messages));
        return CancelledRun;
      }
      var started: bool, budget: nat :| budget >= 1;
      if !started {
        Settle(Dropped(messages));
        outcome := FailedRun;
      } else {
        outcome := RunAgent(messages, budget);
      }
      Await([]);
    }

    /** The thread, over every execution that history rotation splits it into. Every message
        signalled is in exactly one batch or still in the inbox, in arrival order, however the thread
        ends: all batches are turns' but those of runs that failed to start and, when the thread was
        stopped, the last one at most; so with neither, all were handed to turns. It stops by itself
        only with nothing left in its inbox. */
    method Run() returns (outcome: ThreadOutcome)
      requires Keeps([]) && !interrupted
      modifies this
      ensures arrived == FlatAll(batches) + inbox && DroppedIn(batches) == failedStarts
      ensures old(arrived) <= arrived && StoppedAtEnd(old(batches), batches, cancelled || interrupted)
      ensures outcome.Stopped? ==> inbox == []
      ensures failedStarts == old(failedStarts) && !cancelled && !interrupted ==>
                OnlyTurnsBut(old(batches), batches, false)
      ensures outcome.CancelledThread? ==> cancelled || interrupted
    {
      hide FlatAll, DroppedIn;
      WaitForMessage();
      while !cancelled && !interrupted
        invariant Keeps([]) && (inbox != [] || cancelled || interrupted)
        invariant old(arrived) <= arrived && StoppedAtEnd(old(batches), batches, cancelled || interrupted)
        decreases future
      {
        ghost var before := batches;
        var _ := RunNext();
        RunsOn(old(batches), before, batches, cancelled || interrupted);
        if interrupted {
          break;
        }
        if inbox == [] {
          if failedStarts == old(failedStarts) && !cancelled {
            NothingDropped(old(batches), batches);
          }
          return Stopped;
        }
        var rotate: bool := *;
        if rotate {
          // A new execution starts with the carried messages.
          var carried := inbox;
          inbox := [];
          inbox := inbox + carried;
        }
      }
      outcome := CancelledThread;
    }

    /** Suspend until there is something to do. */
    method WaitForMessage()
      requires Keeps([])
      modifies this`inbox, this`cancelled, this`interrupted, this`arrived
      ensures Keeps([]) && (inbox != [] || cancelled || interrupted)
      ensures old(inbox) != [] ==> unchanged(this)
      ensures old(arrived) <= arrived && batches == old(batches)
    {
      if inbox == [] {
        var message: Inbound, cancel: bool, interrupt: bool :| message >= 0;
        if cancel || interrupt {
          cancelled, interrupted := cancelled || cancel, interrupted || interrupt;
        } else {
          inbox := [message];
          arrived := arrived + [message];
        }
      }
    }
  }

  lemma Behind(done: seq<Inbound>, waiting: seq<Inbound>, queued: seq<Inbound>, batch: seq<Inbound>)
    ensures done + waiting + queued + batch == done + waiting + (queued + batch)
    ensures done + (waiting + queued) + [] == done + waiting + queued
    ensures done + waiting + [] + queued == done + waiting + queued
  {
  }
}
