/** One agent run, in this process and in a workflow: two loops over the same turns and tool
    groups. */
module Loops {
  import opened Messages

  datatype Outcome = Completed | Exhausted | Failed

  /** What a turn, called with its index and how many turns in a row had no tool call, comes to. */
  datatype Turn = Raises(error: string) | Ends(calls: bool, reminded: bool, stopReason: string)

  /** What the turn's tool group comes to. */
  datatype Group = Breaks(error: string) | Finishes(terminal: bool)

  datatype Script = Script(turn: (nat, nat) -> Turn, group: nat -> Group)

  datatype Started = Started(turnCount: nat, maxTurns: nat, error: Option<string>)

  datatype Finalized = Finalized(outcome: Outcome, stopReason: Option<string>, turnCount: nat)

  // ---------- What a run comes to ----------

  /** The end of a run, the turns it called, and whether the last of them failed. */
  datatype End = End(outcome: Outcome, stopReason: Option<string>, turns: seq<(nat, nat)>, turnFailed: bool)

  function First(call: (nat, nat), end: End): End {
    end.(turns := [call] + end.turns)
  }

  function RunFrom(script: Script, remaining: nat, done: nat, textOnly: nat): End
    decreases remaining
  {
    if remaining == 0 then End(Exhausted, None, [], false)
    else
      var call := (done + 1, textOnly);
      match script.turn(call.0, call.1)
      case Raises(error) => End(Failed, Some(error), [call], true)
      case Ends(calls, reminded, reason) =>
        if !calls then
          if reminded then First(call, RunFrom(script, remaining - 1, done + 1, textOnly + 1))
          else if reason != "" then End(Exhausted, Some(reason), [call], false)
          else End(Completed, None, [call], false)
        else
          match script.group(done + 1)
          case Breaks(error) => End(Failed, Some(error), [call], false)
          case Finishes(terminal) =>
            if terminal then End(Completed, None, [call], false)
            else First(call, RunFrom(script, remaining - 1, done + 1, textOnly))
  }

  ghost predicate Numbered(called: seq<(nat, nat)>, done: nat) {
    forall k :: 0 <= k < |called| ==> called[k].0 == done + 1 + k
  }

  lemma FirstIsNumbered(call: (nat, nat), called: seq<(nat, nat)>, done: nat)
    requires call.0 == done + 1 && Numbered(called, done + 1)
    ensures Numbered([call] + called, done)
  {
  }

  /** Within the budget, numbered on from the thread's count, and only a failed run fails a turn. */
  lemma {:induction false} RunIsNumbered(script: Script, remaining: nat, done: nat, textOnly: nat)
    ensures var end := RunFrom(script, remaining, done, textOnly);
      && |end.turns| <= remaining
      && Numbered(end.turns, done)
      && (end.turnFailed ==> end.outcome.Failed? && end.turns != [])
      && (end.outcome.Exhausted? && end.stopReason.None? ==> |end.turns| == remaining)
    decreases remaining
  {
    var call := (done + 1, textOnly);
    if remaining > 0 {
      var move := MoveOf(script, done, textOnly);
      MoveIs(script, remaining, done, textOnly);
      if move.GoesOn? {
        RunIsNumbered(script, remaining - 1, done + 1, move.textOnly);
        FirstIsNumbered(call, RunFrom(script, remaining - 1, done + 1, move.textOnly).turns, done);
      }
    }
  }

  /** A turn after which another one follows: it was reminded, or its tools ran and none was terminal. */
  predicate Continues(script: Script, call: (nat, nat)) {
    match script.turn(call.0, call.1)
    case Raises(_) => false
    case Ends(calls, reminded, _) =>
      if calls then script.group(call.0) == Finishes(false) else reminded
  }

  /** The turns of a run: each but the last continues, and each is told how many turns before it were
      reminded. */
  ghost predicate Chained(script: Script, turns: seq<(nat, nat)>, done: nat, textOnly: nat) {
    && (turns != [] ==> turns[0] == (done + 1, textOnly))
    && forall k :: 0 <= k < |turns| - 1 ==> ChainedAt(script, turns, k)
  }

  predicate ChainedAt(script: Script, turns: seq<(nat, nat)>, k: nat)
    requires k + 1 < |turns|
  {
    && Continues(script, turns[k])
    && turns[k + 1].0 == turns[k].0 + 1
    && turns[k + 1].1 == turns[k].1 + if script.turn(turns[k].0, turns[k].1).calls then 0 else 1
  }

  /** What the last turn says about the end: an error fails the run, a turn without calls completes it or
      exhausts it for its reason, terminal tools complete it, and else the budget was spent. */
  predicate DecidedBy(script: Script, last: (nat, nat), end: End, spent: bool) {
    if Continues(script, last) then spent && end.outcome.Exhausted? && end.stopReason.None? && !end.turnFailed
    else
      match script.turn(last.0, last.1)
      case Raises(error) => end.outcome.Failed? && end.stopReason == Some(error) && end.turnFailed
      case Ends(calls, _, reason) =>
        && !end.turnFailed
        && (if calls then
              match script.group(last.0)
              case Breaks(error) => end.outcome.Failed? && end.stopReason == Some(error)
              case Finishes(_) => end.outcome.Completed? && end.stopReason.None?
            else if reason != "" then end.outcome.Exhausted? && end.stopReason == Some(reason)
            else end.outcome.Completed? && end.stopReason.None?)
  }

  /** How a run of `remaining` turns, from here on, is decided by its turns. */
  ghost predicate Decided(script: Script, remaining: nat, done: nat, textOnly: nat, end: End) {
    && (end.turns == [] <==> remaining == 0)
    && (end.turns == [] ==> end.outcome.Exhausted? && end.stopReason.None? && !end.turnFailed)
    && Chained(script, end.turns, done, textOnly)
    && (end.turns != [] ==> DecidedBy(script, end.turns[|end.turns| - 1], end, |end.turns| == remaining))
  }

  lemma ChainedMore(script: Script, rest: seq<(nat, nat)>, done: nat, textOnly: nat, next: nat)
    requires Chained(script, rest, done + 1, next) && MoveOf(script, done, textOnly) == GoesOn(next)
    ensures Continues(script, (done + 1, textOnly))
    ensures Chained(script, [(done + 1, textOnly)] + rest, done, textOnly)
  {
    var all: seq<(nat, nat)> := [(done + 1, textOnly)] + rest;
    assert forall k :: 0 <= k < |rest| ==> all[k + 1] == rest[k];
    forall k | 0 <= k < |rest| ensures ChainedAt(script, all, k) {
      if k > 0 {
        assert ChainedAt(script, rest, k - 1);
      }
    }
  }

  lemma DecidedMore(script: Script, remaining: nat, done: nat, textOnly: nat, next: nat, rest: End)
    requires remaining > 0 && MoveOf(script, done, textOnly) == GoesOn(next)
    requires Decided(script, remaining - 1, done + 1, next, rest)
    ensures Decided(script, remaining, done, textOnly, First((done + 1, textOnly), rest))
  {
    ChainedMore(script, rest.turns, done, textOnly, next);
    hide Chained, MoveOf, Continues;
    var all := First((done + 1, textOnly), rest);
    assert rest.turns != [] ==> all.turns[|all.turns| - 1] == rest.turns[|rest.turns| - 1];
  }

  /** A run goes on exactly while its turns continue and its budget lasts, and ends as its last turn
      says. */
  lemma {:induction false} RunIsDecided(script: Script, remaining: nat, done: nat, textOnly: nat)
    ensures Decided(script, remaining, done, textOnly, RunFrom(script, remaining, done, textOnly))
    decreases remaining
  {
    if remaining > 0 {
      var move := MoveOf(script, done, textOnly);
      MoveIs(script, remaining, done, textOnly);
      if move.GoesOn? {
        hide RunFrom, MoveOf, Decided;
        RunIsDecided(script, remaining - 1, done + 1, move.textOnly);
        DecidedMore(script, remaining, done, textOnly, move.textOnly,
            RunFrom(script, remaining - 1, done + 1, move.textOnly));
      }
    }
  }

  /** What one turn does to a run: another turn follows, or it is over. */
  datatype Move = GoesOn(textOnly: nat) | Ends(outcome: Outcome, stopReason: Option<string>, turnFailed: bool)

  function MoveOf(script: Script, done: nat, textOnly: nat): Move {
    match script.turn(done + 1, textOnly)
    case Raises(error) => Move.Ends(Failed, Some(error), true)
    case Ends(calls, reminded, reason) =>
      if !calls then
        if reminded then GoesOn(textOnly + 1)
        else if reason != "" then Move.Ends(Exhausted, Some(reason), false)
        else Move.Ends(Completed, None, false)
      else
        match script.group(done + 1)
        case Breaks(error) => Move.Ends(Failed, Some(error), false)
        case Finishes(terminal) => if terminal then Move.Ends(Completed, None, false) else GoesOn(textOnly)
  }

  lemma MoveIs(script: Script, remaining: nat, done: nat, textOnly: nat)
    requires remaining > 0
    ensures var call := (done + 1, textOnly);
      RunFrom(script, remaining, done, textOnly)
      == match MoveOf(script, done, textOnly)
         case GoesOn(next) => First(call, RunFrom(script, remaining - 1, done + 1, next))
         case Ends(outcome, reason, failed) => End(outcome, reason, [call], failed)
  {
  }

  /** `end`, after the turns already called. */
  function Joined(called: seq<(nat, nat)>, end: End): End {
    end.(turns := called + end.turns)
  }

  /** A run after one more turn. */
  lemma OneTurn(script: Script, remaining: nat, done: nat, textOnly: nat, called: seq<(nat, nat)>)
    requires remaining > 0
    ensures var after := called + [(done + 1, textOnly)];
      Joined(called, RunFrom(script, remaining, done, textOnly))
      == match MoveOf(script, done, textOnly)
         case GoesOn(next) => Joined(after, RunFrom(script, remaining - 1, done + 1, next))
         case Ends(outcome, reason, failed) => End(outcome, reason, after, failed)
  {
    MoveIs(script, remaining, done, textOnly);
    var move := MoveOf(script, done, textOnly);
    if move.GoesOn? {
      Reassociate(called, (done + 1, textOnly), RunFrom(script, remaining - 1, done + 1, move.textOnly).turns);
    }
  }

  lemma AtBothEnds(script: Script, done: nat, textOnly: nat, called: seq<(nat, nat)>, end: End)
    ensures Joined(called, RunFrom(script, 0, done, textOnly)) == End(Exhausted, None, called, false)
    ensures Joined([], end) == end
  {
  }

  function EndOf(script: Script, started: Started): End {
    if started.error.Some? then End(Failed, started.error, [], false)
    else RunFrom(script, started.maxTurns, started.turnCount, 0)
  }

  // ---------- The two loops ----------

  ghost predicate Closed(end: End, outcome: Outcome, stopReason: Option<string>, called: seq<(nat, nat)>) {
    end.outcome == outcome && end.stopReason == stopReason && end.turns == called
  }

  method RunInProcess(script: Script, started: Started) returns (finalized: Finalized, ghost called: seq<(nat, nat)>)
    ensures var end := EndOf(script, started);
      finalized == Finalized(end.outcome, end.stopReason, started.turnCount + |end.turns|)
    ensures called == EndOf(script, started).turns
  {
    hide RunFrom, Joined;
    called := [];
    if started.error.Some? {
      return Finalized(Failed, started.error, started.turnCount), called;
    }
    var turnsRemaining := started.maxTurns;
    var turnCount := started.turnCount;
    var textOnlyTurns := 0;
    var stopReason: Option<string> := None;
    var outcome := Exhausted;
    ghost var end := EndOf(script, started);
    AtBothEnds(script, turnCount, textOnlyTurns, called, RunFrom(script, turnsRemaining, turnCount, textOnlyTurns));
    while turnsRemaining > 0
      invariant turnCount == started.turnCount + |called| && outcome == Exhausted && stopReason == None
      invariant end == Joined(called, RunFrom(script, turnsRemaining, turnCount, textOnlyTurns))
      invariant turnsRemaining == 0 ==> Closed(end, outcome, stopReason, called)
    {
      OneTurn(script, turnsRemaining, turnCount, textOnlyTurns, called);
      turnCount := turnCount + 1;
      called := called + [(turnCount, textOnlyTurns)];
      var turn := script.turn(turnCount, textOnlyTurns);
      if turn.Raises? {
        stopReason, outcome := Some(turn.error), Failed;
        assert Closed(end, outcome, stopReason, called);
        break;
      }
      turnsRemaining := turnsRemaining - 1;
      if !turn.calls {
        if turn.reminded {
          textOnlyTurns := textOnlyTurns + 1;
          AtBothEnds(script, turnCount, textOnlyTurns, called, end);
          continue;
        }
        if turn.stopReason != "" {
          stopReason, outcome := Some(turn.stopReason), Exhausted;
        } else {
          outcome := Completed;
        }
        assert Closed(end, outcome, stopReason, called);
        break;
      }
      var group := script.group(turnCount);
      if group.Breaks? {
        stopReason, outcome := Some(group.error), Failed;
        assert Closed(end, outcome, stopReason, called);
        break;
      }
      if group.terminal {
        outcome := Completed;
        assert Closed(end, outcome, stopReason, called);
        break;
      }
      AtBothEnds(script, turnCount, textOnlyTurns, called, end);
    }
    finalized := Finalized(outcome, stopReason, turnCount);
  }

  lemma Reassociate(a: seq<(nat, nat)>, x: (nat, nat), b: seq<(nat, nat)>)
    ensures a + ([x] + b) == a + [x] + b
  {
  }

  method RunInWorkflow(script: Script, started: Started) returns (finalized: Finalized, ghost called: seq<(nat, nat)>)
    ensures var end := EndOf(script, started);
      finalized == Finalized(end.outcome, end.stopReason, started.turnCount + |end.turns| - if end.turnFailed then 1
          else 0)
    ensures called == EndOf(script, started).turns
  {
    hide RunFrom, Joined;
    var turnCountTotal := started.turnCount;
    called := [];
    RunIsNumbered(script, started.maxTurns, started.turnCount, 0);
    if started.error.Some? {
      return Finalized(Failed, started.error, turnCountTotal), called;
    }
    var turnsRemaining := started.maxTurns;
    var textOnlyTurns := 0;
    ghost var end := EndOf(script, started);
    AtBothEnds(script, turnCountTotal, textOnlyTurns, called,
        RunFrom(script, turnsRemaining, turnCountTotal, textOnlyTurns));
    while turnsRemaining > 0
      invariant turnCountTotal == started.turnCount + |called|
      invariant end == Joined(called, RunFrom(script, turnsRemaining, turnCountTotal, textOnlyTurns))
    {
      var turnIndex := turnCountTotal + 1;
      OneTurn(script, turnsRemaining, turnCountTotal, textOnlyTurns, called);
      called := called + [(turnIndex, textOnlyTurns)];
      var turn := script.turn(turnIndex, textOnlyTurns);
      if turn.Raises? {
        return Finalized(Failed, Some(turn.error), turnCountTotal), called;
      }
      turnCountTotal := turnCountTotal + 1;
      turnsRemaining := turnsRemaining - 1;
      if !turn.calls {
        if turn.reminded {
          textOnlyTurns := textOnlyTurns + 1;
          continue;
        }
        if turn.stopReason != "" {
          return Finalized(Exhausted, Some(turn.stopReason), turnCountTotal), called;
        }
        return Finalized(Completed, None, turnCountTotal), called;
      }
      var group := script.group(turnIndex);
      if group.Breaks? {
        return Finalized(Failed, Some(group.error), turnCountTotal), called;
      }
      if group.terminal {
        return Finalized(Completed, None, turnCountTotal), called;
      }
    }
    AtBothEnds(script, turnCountTotal, textOnlyTurns, called, end);
    finalized := Finalized(Exhausted, None, turnCountTotal);
  }

  /** For every script the two loops call the same turns and end the same way; their counts differ,
      by one, exactly when a turn failed. */
  method BothLoops(script: Script, started: Started) returns (local: Finalized, durable: Finalized, turnFailed: bool)
    ensures local.outcome == durable.outcome && local.stopReason == durable.stopReason
    ensures local.turnCount == durable.turnCount + if turnFailed then 1 else 0
    ensures turnFailed == EndOf(script, started).turnFailed
    ensures turnFailed ==> local.outcome.Failed?
    ensures local.turnCount <= started.turnCount + started.maxTurns
  {
    ghost var inProcess, inWorkflow;
    local, inProcess := RunInProcess(script, started);
    durable, inWorkflow := RunInWorkflow(script, started);
    assert inProcess == inWorkflow;
    RunIsNumbered(script, started.maxTurns, started.turnCount, 0);
    turnFailed := local.turnCount != durable.turnCount;
  }
}
