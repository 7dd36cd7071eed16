/** The sliding-window rate limiter shared by every caller of one model. */
module RateLimit {
  import opened Messages
  import opened RateLedger
  import opened RateWait
  import opened RateWindows

  class RateLimiter {
    const config: Config
    var tokenWindow: seq<Admission>
    var requestWindow: seq<real>
    /** The monotonic clock. */
    var now: real
    /** Every admission ever, and how much of it each deque has dropped. */
    ghost var history: seq<Admission>
    ghost var tokensDropped: nat
    ghost var requestsDropped: nat
    /** Reservations not committed yet, by the place of their admission, and what each estimated. */
    var open: map<nat, nat>
    var issued: nat
    ghost var ledger: Ledger

    ghost predicate Valid()
      reads this
    {
      issued == |history| && Recorded(history, open, ledger) && Shaped()
    }

    /** The deques hold the end of the history. */
    ghost predicate Shaped()
      reads this
    {
      && Holds(history, tokensDropped, tokenWindow, now - WINDOW_SECS)
      && HoldsTimes(history, requestsDropped, requestWindow, now - WINDOW_SECS)
      && InOrder(history)
      && (forall k :: 0 <= k < |history| ==> history[k].at <= now)
    }

    constructor (config: Config, now: real)
      ensures Valid() && history == [] && open == map[] && ledger.misplaced == {}
      ensures this.config == config && this.now == now
      ensures RequestsBounded(history, config) && TokensBounded(history, config)
    {
      this.config, this.now := config, now;
      tokenWindow, requestWindow := [], [];
      history, tokensDropped, requestsDropped := [], 0, 0;
      open, issued, ledger := map[], 0, Ledger([], [], {});
      EmptyBounded(config);
    }

    /** Drop what is older than the window. */
    method Evict()
      requires Valid()
      modifies this`tokenWindow, this`requestWindow, this`tokensDropped, this`requestsDropped
      ensures Valid()
      ensures tokenWindow != [] ==> tokenWindow[0].at >= now - WINDOW_SECS
      ensures requestWindow != [] ==> requestWindow[0] >= now - WINDOW_SECS
    {
      var cutoff := now - WINDOW_SECS;
      while tokenWindow != [] && tokenWindow[0].at < cutoff
        invariant Holds(history, tokensDropped, tokenWindow, cutoff)
        decreases |tokenWindow|
        modifies this`tokenWindow, this`tokensDropped
      {
        DropOne(history, tokensDropped, tokenWindow, cutoff);
        tokenWindow := tokenWindow[1..];
        tokensDropped := tokensDropped + 1;
      }
      while requestWindow != [] && requestWindow[0] < cutoff
        invariant HoldsTimes(history, requestsDropped, requestWindow, cutoff)
        decreases |requestWindow|
        modifies this`requestWindow, this`requestsDropped
      {
        DropOneTime(history, requestsDropped, requestWindow, cutoff);
        requestWindow := requestWindow[1..];
        requestsDropped := requestsDropped + 1;
      }
    }

    /** However the window is filled, the wait is the whole window and the slack: the target
        starts at `now`, and no entry is later. */
    method ComputeWait(estimated: nat, tokensInWindow: nat, requestsInWindow: nat) returns (wait: real)
      requires Valid()
      ensures wait == WINDOW_SECS + SLACK
    {
      var target := now;
      if tokensInWindow + estimated > config.tokensPerMinute && tokenWindow != [] {
        var need := tokensInWindow + estimated - config.tokensPerMinute;
        var cumulative := 0;
        for k := 0 to |tokenWindow|
          invariant target == now
        {
          cumulative := cumulative + tokenWindow[k].tokens;
          if cumulative >= need {
            assert history[tokensDropped + k] == tokenWindow[k];
            target := Max(target, tokenWindow[k].at);
            break;
          }
        }
      }
      if requestsInWindow >= config.requestsPerMinute && requestWindow != [] {
        assert history[requestsDropped].at == requestWindow[0];
        target := Max(target, requestWindow[0]);
      }
      wait := Max(0.05, WINDOW_SECS - (now - target) + SLACK);
    }

    /** The last entry takes the actual count, whichever reservation it belongs to. */
    method RecordActual(actual: nat)
      requires Shaped()
      modifies this`tokenWindow, this`history
      ensures Shaped() && history == Corrected(old(history), old(tokenWindow) != [], actual)
      ensures Amended(old(history), history)
      ensures old(tokenWindow) == [] ==> unchanged(this)
      ensures old(tokenWindow) != [] && TokensBounded(old(history), config) ==>
                var last := history[|history| - 1].at;
                TokensBounded(history, config)
                <==> TokensIn(history, last - WINDOW_SECS, last) <= config.tokensPerMinute
    {
      ghost var before := history;
      if tokenWindow != [] {
        var last := |tokenWindow| - 1;
        var tail := tokenWindow[last];
        assert history[|history| - 1] == tail;
        tokenWindow := tokenWindow[last := Admission(tail.at, actual)];
        history := history[|history| - 1 := Admission(tail.at, actual)];
        AmendingKeepsBounds(before, history, config);
      }
    }

    /** A reservation ends. A figure other than its estimate rewrites the last admission: its own if
        and only if that is the last, and still in the deque. */
    method Commit(i: nat, actual: Option<nat>)
      requires Valid() && i in open
      modifies this`tokenWindow, this`history, this`open, this`ledger
      ensures Valid() && open == old(open) - {i}
      ensures ledger == Committed(old(history), old(tokenWindow) != [], old(open), old(ledger), i, actual)
      ensures history == if Corrects(old(open)[i], actual)
          then Corrected(old(history), old(tokenWindow) != [], actual.value)
                         else old(history)
    {
      hide Holds, HoldsTimes, InOrder, Recorded;
      CommittingRecords(history, tokenWindow != [], open, ledger, i, actual);
      OpenIsPlaced(history, open, ledger, i);
      ledger := Committed(history, tokenWindow != [], open, ledger, i, actual);
      if actual.Some? && actual.value != open[i] {
        RecordActual(actual.value);
      }
      open := open - {i};
    }

    /** Time passes, at least as much as asked for, while open reservations of others commit. */
    method Sleep(secs: real)
      requires Valid() && secs >= 0.0
      modifies this`now, this`tokenWindow, this`history, this`open, this`ledger
      ensures Valid()
      ensures now >= old(now) + secs
      ensures Amended(old(history), history) && open.Keys <= old(open).Keys
      ensures old(open) == map[] ==> history == old(history) && ledger == old(ledger)
      ensures forall k :: 0 <= k < |history| ==> history[k].at <= old(now)
      ensures RequestsBounded(old(history), config) ==> RequestsBounded(history, config)
    {
      hide Holds, HoldsTimes, InOrder, Recorded;
      Pass(secs);
      var finishing: nat :| finishing >= 0;
      while finishing > 0 && open != map[]
        invariant Valid() && now >= old(now) + secs && Amended(old(history), history)
        invariant open.Keys <= old(open).Keys
        invariant old(open) == map[] ==> history == old(history) && ledger == old(ledger)
        invariant forall k :: 0 <= k < |history| ==> history[k].at <= old(now)
      {
        assert open.Keys != {};
        var i :| i in open.Keys;
        var actual: Option<nat> :| actual.Some? || actual.None?;
        Commit(i, actual);
        finishing := finishing - 1;
      }
      AmendingKeepsBounds(old(history), history, config);
    }

    /** Time passes. */
    method Pass(secs: real)
      requires Valid() && secs >= 0.0
      modifies this`now
      ensures Valid() && now >= old(now) + secs
    {
      var late: real :| late >= 0.0;
      now := now + secs + late;
    }

    /** Record a reservation that the evicted deques have room for. */
    method Admit(estimated: nat)
      requires Valid()
      requires tokenWindow != [] ==> tokenWindow[0].at >= now - WINDOW_SECS
      requires requestWindow != [] ==> requestWindow[0] >= now - WINDOW_SECS
      requires Total(tokenWindow) + estimated <= config.tokensPerMinute
      requires |requestWindow| < config.requestsPerMinute
      modifies this`tokenWindow, this`requestWindow, this`history, this`open, this`issued, this`ledger
      ensures Valid() && tokenWindow != []
      ensures history == old(history) + [Admission(now, estimated)]
      ensures open == old(open)[old(issued) := estimated] && ledger == Admitted(old(ledger), estimated)
      ensures TokensIn(old(history), now - WINDOW_SECS, now) + estimated <= config.tokensPerMinute
      ensures RequestsIn(old(history), now - WINDOW_SECS, now) < config.requestsPerMinute
      ensures RequestsBounded(old(history), config) ==> RequestsBounded(history, config)
      ensures TokensBounded(old(history), config) ==> TokensBounded(history, config)
    {
      hide Holds, HoldsTimes, InOrder, Recorded, RequestsBounded, TokensBounded;
      FittingKeepsBounds(history, tokensDropped, tokenWindow, requestsDropped, requestWindow, config, now, estimated);
      AdmittingRecords(history, open, ledger, now, estimated);
      tokenWindow := tokenWindow + [Admission(now, estimated)];
      requestWindow := requestWindow + [now];
      ledger := Admitted(ledger, estimated);
      open := open[issued := estimated];
      history := history + [Admission(now, estimated)];
      issued := issued + 1;
    }

    /** Wait until the request fits, then record it, with `passes` tries before the caller gives up.
        From two tries on, it is admitted if and only if it fits an empty window, after one sleep at
        most; it then fits the closed window that ends now, counted over the whole history. */
    method Acquire(estimated: nat, passes: nat)
      returns (admitted: bool, ghost sleeps: nat, ghost before: seq<Admission>)
      requires Valid()
      modifies this
      ensures Valid() && now >= old(now)
      ensures admitted ==> estimated <= config.tokensPerMinute && config.requestsPerMinute >= 1
      ensures passes >= 2 && estimated <= config.tokensPerMinute && config.requestsPerMinute >= 1 ==> admitted
      ensures admitted ==> sleeps <= 1
      ensures !admitted ==> sleeps == passes && history == before
      ensures sleeps == 0 || old(open) == map[] ==> before == old(history)
      ensures Amended(old(history), before)
      ensures admitted ==> history == before + [Admission(now, estimated)] && tokenWindow != []
      ensures admitted ==> issued == old(issued) + 1 && old(issued) in open && open[old(issued)] == estimated
      ensures admitted && old(open) == map[]
          ==> open == map[old(issued) := estimated] && ledger == Admitted(old(ledger), estimated)
      ensures !admitted && old(open) == map[] ==> open == map[] && ledger == old(ledger)
      ensures admitted ==> TokensIn(before, now - WINDOW_SECS, now) + estimated <= config.tokensPerMinute
      ensures admitted ==> RequestsIn(before, now - WINDOW_SECS, now) < config.requestsPerMinute
      ensures RequestsBounded(old(history), config) ==> RequestsBounded(history, config)
      ensures TokensBounded(before, config) ==> TokensBounded(history, config)
    {
      hide Holds, HoldsTimes, InOrder, Recorded, RequestsBounded, TokensBounded;
      sleeps := 0;
      for pass := 0 to passes
        invariant Valid() && now >= old(now) && sleeps == pass && issued == old(issued)
        invariant sleeps == 0 ==> history == old(history)
        invariant Amended(old(history), history) && open.Keys <= old(open).Keys
        invariant old(open) == map[] ==> history == old(history) && open == map[] && ledger == old(ledger)
        invariant RequestsBounded(old(history), config) ==> RequestsBounded(history, config)
        invariant sleeps >= 1 ==> forall k :: 0 <= k < |history| ==> history[k].at < now - WINDOW_SECS
        invariant sleeps >= 2 ==> estimated > config.tokensPerMinute || config.requestsPerMinute == 0
      {
        Evict();
        var tokensInWindow := Total(tokenWindow);
        var requestsInWindow := |requestWindow|;
        if sleeps >= 1 {
          AllGone(history, tokensDropped, tokenWindow, requestsDropped, requestWindow, now - WINDOW_SECS);
        }
        if tokensInWindow + estimated <= config.tokensPerMinute && requestsInWindow < config.requestsPerMinute {
          before := history;
          Admit(estimated);
          return true, sleeps, before;
        }
        var wait := ComputeWait(estimated, tokensInWindow, requestsInWindow);
        Sleep(wait);
        sleeps := sleeps + 1;
      }
      return false, sleeps, history;
    }

    /** A reservation while no other is open: it ends with its own figure recorded, and the token
        bound survives if and only if that figure fits the window its admission closes. */
    method Reserve(estimated: nat, actual: Option<nat>, passes: nat) returns (admitted: bool, ghost at: real)
      requires Valid() && open == map[]
      modifies this
      ensures Valid() && open == map[] && ledger.misplaced == old(ledger.misplaced)
      ensures passes >= 2 && estimated <= config.tokensPerMinute && config.requestsPerMinute >= 1 ==> admitted
      ensures !admitted ==> history == old(history)
      ensures admitted ==> old(now) <= at <= now
                           && history == old(history) + [Admission(at, Figure(estimated, actual))]
                           && TokensIn(old(history), at - WINDOW_SECS, at) + estimated <= config.tokensPerMinute
      ensures admitted && TokensBounded(old(history), config) ==>
                (TokensBounded(history, config)
                 <==> TokensIn(old(history), at - WINDOW_SECS, at) + Figure(estimated, actual)
                      <= config.tokensPerMinute)
      ensures RequestsBounded(old(history), config) ==> RequestsBounded(history, config)
    {
      hide Valid, Holds, HoldsTimes, InOrder, Recorded, RequestsBounded, TokensBounded, Committed;
      var id := issued;
      ghost var sleeps, before;
      InTime();
      ghost var reserved := ledger;
      admitted, sleeps, before := Acquire(estimated, passes);
      at := now;
      if admitted {
        Pass(0.0);
        AloneCommits(before, at, reserved, estimated, actual);
        Commit(id, actual);
        AdmittingKeepsBounds(before, config, at, Figure(estimated, actual));
      }
    }

    lemma InTime()
      requires Valid()
      ensures issued == |history| == |ledger.own| && InOrder(history)
      ensures forall k :: 0 <= k < |history| ==> history[k].at <= now
    {
    }
  }

  /** What a reservation ends up holding. */
  function Figure(estimated: nat, actual: Option<nat>): nat {
    if actual.Some? then actual.value else estimated
  }

  /** A reservation that is the last and the only one open corrects its own admission. */
  lemma AloneCommits(before: seq<Admission>, at: real, l: Ledger, estimated: nat, actual: Option<nat>)
    requires |l.own| == |before|
    ensures var n, reserved := |before|, before + [Admission(at, estimated)];
      && (if Corrects(estimated, actual) then Corrected(reserved, true, actual.value) else reserved)
         == before + [Admission(at, Figure(estimated, actual))]
      && map[n := estimated] - {n} == map[]
      && Committed(reserved, true, map[n := estimated], Admitted(l, estimated), n, actual).misplaced == l.misplaced
  {
  }
}
