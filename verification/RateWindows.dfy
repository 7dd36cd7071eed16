/** Admissions of a rate limiter and what any window of them holds. */
module RateWindows {
  const WINDOW_SECS: real := 60.0

  /** A reservation let through: when, and the tokens recorded for it. */
  datatype Admission = Admission(at: real, tokens: nat)

  /** Tokens may be corrected, but the limits are the configured ones. */
  datatype Config = Config(tokensPerMinute: nat, requestsPerMinute: nat)

  function Inside(a: Admission, from: real, to: real): bool {
    from <= a.at <= to
  }

  /** Tokens admitted in the closed window [from, to]. */
  function TokensIn(history: seq<Admission>, from: real, to: real): nat {
    if history == [] then 0
    else TokensIn(history[..|history| - 1], from, to)
         + if Inside(history[|history| - 1], from, to) then history[|history| - 1].tokens else 0
  }

  function RequestsIn(history: seq<Admission>, from: real, to: real): nat {
    if history == [] then 0
    else RequestsIn(history[..|history| - 1], from, to)
         + if Inside(history[|history| - 1], from, to) then 1 else 0
  }

  /** The closed window that starts at `from`. */
  function TokensFrom(history: seq<Admission>, from: real): nat {
    TokensIn(history, from, from + WINDOW_SECS)
  }

  function RequestsFrom(history: seq<Admission>, from: real): nat {
    RequestsIn(history, from, from + WINDOW_SECS)
  }

  function Total(window: seq<Admission>): nat {
    if window == [] then 0 else Total(window[..|window| - 1]) + window[|window| - 1].tokens
  }

  ghost predicate InOrder(history: seq<Admission>) {
    forall j, k :: 0 <= j < k < |history| ==> NotAfter(history[j], history[k])
  }

  predicate NotAfter(a: Admission, b: Admission) {
    a.at <= b.at
  }

  /** No closed window, wherever it starts, holds more requests than the limit. */
  ghost predicate RequestsBounded(history: seq<Admission>, config: Config) {
    forall from: real :: RequestsFrom(history, from) <= config.requestsPerMinute
  }

  ghost predicate TokensBounded(history: seq<Admission>, config: Config) {
    forall from: real :: TokensFrom(history, from) <= config.tokensPerMinute
  }

  /** `to` is `from` with at most its last entry's tokens rewritten. */
  ghost predicate Amended(from: seq<Admission>, to: seq<Admission>) {
    && |to| == |from|
    && (|from| > 0 ==> to[..|from| - 1] == from[..|from| - 1] && to[|from| - 1].at == from[|from| - 1].at)
  }

  // ---------- Windows of a history ----------

  /** A later, shorter stretch of the same history holds no more. */
  lemma {:induction false} Narrower(history: seq<Admission>, from: real, to: real, from': real, to': real)
    requires forall k :: 0 <= k < |history| && Inside(history[k], from, to) ==> Inside(history[k], from', to')
    ensures TokensIn(history, from, to) <= TokensIn(history, from', to')
    ensures RequestsIn(history, from, to) <= RequestsIn(history, from', to')
  {
    if history != [] {
      Narrower(history[..|history| - 1], from, to, from', to');
    }
  }

  /** What the deques hold is exactly the last window of the whole history. */
  lemma {:induction false} WindowTotal(history: seq<Admission>, dropped: nat, from: real, to: real)
    requires dropped <= |history|
    requires forall k :: 0 <= k < dropped ==> history[k].at < from
    requires forall k :: dropped <= k < |history| ==> Inside(history[k], from, to)
    ensures TokensIn(history, from, to) == Total(history[dropped..])
    ensures RequestsIn(history, from, to) == |history| - dropped
  {
    if history != [] {
      var n := |history| - 1;
      if dropped <= n {
        WindowTotal(history[..n], dropped, from, to);
        assert history[..n][dropped..] == history[dropped..][..n - dropped];
      } else {
        WindowTotal(history[..n], n, from, to);
        assert history[dropped..] == [] == history[..n][n..];
      }
    }
  }

  /** What one more admission adds to a window, and where there is least room for it. */
  lemma AdmittingCounts(history: seq<Admission>, now: real, tokens: nat, from: real)
    requires forall k :: 0 <= k < |history| ==> history[k].at <= now
    ensures var after, closes := history + [Admission(now, tokens)], from <= now <= from + WINDOW_SECS;
      && TokensFrom(after, from) == TokensFrom(history, from) + (if closes then tokens else 0)
      && RequestsFrom(after, from) == RequestsFrom(history, from) + (if closes then 1 else 0)
      && (closes ==> TokensFrom(history, from) <= TokensIn(history, now - WINDOW_SECS, now)
                     && RequestsFrom(history, from) <= RequestsIn(history, now - WINDOW_SECS, now))
  {
    var after := history + [Admission(now, tokens)];
    assert after[..|history|] == history;
    if from <= now <= from + WINDOW_SECS {
      Narrower(history, from, from + WINDOW_SECS, now - WINDOW_SECS, now);
    }
  }

  lemma LastWindow(history: seq<Admission>, now: real)
    ensures TokensFrom(history, now - WINDOW_SECS) == TokensIn(history, now - WINDOW_SECS, now)
    ensures RequestsFrom(history, now - WINDOW_SECS) == RequestsIn(history, now - WINDOW_SECS, now)
  {
    assert (now - WINDOW_SECS) + WINDOW_SECS == now;
  }

  /** One more admission keeps every window within a limit exactly when the window that ends with
      it has room for it. */
  lemma AdmittingKeepsBounds(history: seq<Admission>, config: Config, now: real, tokens: nat)
    requires InOrder(history) && (forall k :: 0 <= k < |history| ==> history[k].at <= now)
    ensures InOrder(history + [Admission(now, tokens)])
    ensures RequestsBounded(history, config) ==>
              (RequestsBounded(history + [Admission(now, tokens)], config)
               <==> RequestsIn(history, now - WINDOW_SECS, now) < config.requestsPerMinute)
    ensures TokensBounded(history, config) ==>
              (TokensBounded(history + [Admission(now, tokens)], config)
               <==> TokensIn(history, now - WINDOW_SECS, now) + tokens <= config.tokensPerMinute)
  {
    hide TokensFrom, RequestsFrom, TokensIn, RequestsIn;
    var after := history + [Admission(now, tokens)];
    AdmittingCounts(history, now, tokens, now - WINDOW_SECS);
    LastWindow(history, now);
    if TokensBounded(history, config) && TokensIn(history, now - WINDOW_SECS, now) + tokens <= config.tokensPerMinute {
      forall from: real ensures TokensFrom(after, from) <= config.tokensPerMinute {
        AdmittingCounts(history, now, tokens, from);
      }
    }
    if RequestsBounded(history, config) && RequestsIn(history, now - WINDOW_SECS, now) < config.requestsPerMinute {
      forall from: real ensures RequestsFrom(after, from) <= config.requestsPerMinute {
        AdmittingCounts(history, now, tokens, from);
      }
    }
  }

  lemma {:induction false} AmendedCounts(history: seq<Admission>, amended: seq<Admission>, from: real, to: real)
    requires Amended(history, amended)
    ensures RequestsIn(amended, from, to) == RequestsIn(history, from, to)
    ensures history != [] && amended[|history| - 1].tokens <= history[|history| - 1].tokens ==>
              TokensIn(amended, from, to) <= TokensIn(history, from, to)
  {
  }

  /** A correction never changes a request count. It keeps the token bound exactly when the
      window that ends at the corrected entry still fits. */
  lemma AmendingKeepsBounds(history: seq<Admission>, amended: seq<Admission>, config: Config)
    requires Amended(history, amended) && InOrder(history)
    ensures InOrder(amended)
    ensures RequestsBounded(history, config) ==> RequestsBounded(amended, config)
    ensures history != [] && TokensBounded(history, config) ==>
              var last := history[|history| - 1].at;
              TokensBounded(amended, config) <==> TokensIn(amended, last - WINDOW_SECS, last) <= config.tokensPerMinute
    ensures history != [] && amended[|history| - 1].tokens <= history[|history| - 1].tokens
        && TokensBounded(history, config)
      ==> TokensBounded(amended, config)
  {
    forall from: real
      ensures RequestsFrom(amended, from) == RequestsFrom(history, from)
      ensures history != [] && amended[|history| - 1].tokens <= history[|history| - 1].tokens ==>
                TokensFrom(amended, from) <= TokensFrom(history, from)
    {
      AmendedCounts(history, amended, from, from + WINDOW_SECS);
    }
    if history != [] && TokensBounded(history, config) {
      CorrectionFits(history, amended, config);
    }
  }

  lemma CorrectionFits(history: seq<Admission>, amended: seq<Admission>, config: Config)
    requires Amended(history, amended) && InOrder(history) && history != []
    requires TokensBounded(history, config)
    ensures var last := history[|history| - 1].at;
      TokensBounded(amended, config) <==> TokensIn(amended, last - WINDOW_SECS, last) <= config.tokensPerMinute
  {
    var last := history[|history| - 1].at;
    assert TokensFrom(amended, last - WINDOW_SECS) == TokensIn(amended, last - WINDOW_SECS, last) by {
      assert (last - WINDOW_SECS) + WINDOW_SECS == last;
    }
    if TokensIn(amended, last - WINDOW_SECS, last) <= config.tokensPerMinute {
      forall from: real
        ensures TokensFrom(amended, from) <= config.tokensPerMinute
      {
        if from <= last <= from + WINDOW_SECS {
          forall k | 0 <= k < |amended| ensures amended[k].at <= last {
            assert amended[k].at == history[k].at by {
              if k < |history| - 1 {
                assert amended[..|history| - 1][k] == history[..|history| - 1][k];
              }
            }
          }
          Narrower(amended, from, from + WINDOW_SECS, last - WINDOW_SECS, last);
        } else {
          assert TokensFrom(amended, from) == TokensFrom(history, from);
        }
      }
    }
  }

  /** A correction that raises the tail can break the bound: nothing was admitted past it, but
      the window now holds more than the limit. */
  lemma RaisingBreaksBound()
    ensures var config := Config(100, 10);
      var history, amended := [Admission(0.0, 100)], [Admission(0.0, 150)];
      Amended(history, amended) && TokensBounded(history, config) && !TokensBounded(amended, config)
  {
    var config := Config(100, 10);
    var history, amended := [Admission(0.0, 100)], [Admission(0.0, 150)];
    assert history[..0] == [] && amended[..0] == [];
    forall from: real ensures TokensFrom(history, from) <= 100 {
      assert TokensIn(history[..0], from, from + WINDOW_SECS) == 0;
    }
    assert TokensFrom(amended, 0.0) == 150;
  }

  /** A correction lands on the last entry even when it belongs to an earlier reservation. The
      first of two reservations finishes at 5 tokens, the second one's 90 become 5, and a third is
      let in: the deque stays within the limit, the reservations' own figures do not. */
  lemma MisplacedCorrection()
    ensures var config := Config(100, 10);
      var open := [Admission(0.0, 10), Admission(1.0, 90)];
      var corrected := [Admission(0.0, 10), Admission(1.0, 5)];
      var recorded := corrected + [Admission(2.0, 85)];
      var owed := [Admission(0.0, 5), Admission(1.0, 90), Admission(2.0, 85)];
      && Amended(open, corrected)
      && TokensIn(corrected, 2.0 - WINDOW_SECS, 2.0) + 85 <= config.tokensPerMinute
      && TokensFrom(recorded, 0.0) <= config.tokensPerMinute < TokensFrom(owed, 0.0)
  {
    var open, corrected := [Admission(0.0, 10), Admission(1.0, 90)], [Admission(0.0, 10), Admission(1.0, 5)];
    assert open[..1] == corrected[..1] == [Admission(0.0, 10)];
    assert [Admission(0.0, 10)][..0] == [];
    var recorded := corrected + [Admission(2.0, 85)];
    assert recorded[..2] == corrected;
    var owed := [Admission(0.0, 5), Admission(1.0, 90), Admission(2.0, 85)];
    assert owed[..2] == [Admission(0.0, 5), Admission(1.0, 90)];
    assert owed[..2][..1] == [Admission(0.0, 5)] && [Admission(0.0, 5)][..0] == [];
    assert TokensIn(owed[..2][..1], 0.0, 0.0 + WINDOW_SECS) == 5;
    assert TokensIn(owed[..2], 0.0, 0.0 + WINDOW_SECS) == 95;
    assert TokensIn(corrected[..1], 0.0, 0.0 + WINDOW_SECS) == 10;
    assert TokensIn(corrected[..1], 2.0 - WINDOW_SECS, 2.0) == 10;
    assert TokensIn(corrected, 0.0, 0.0 + WINDOW_SECS) == 15;
  }

  lemma EmptyBounded(config: Config)
    ensures RequestsBounded([], config) && TokensBounded([], config)
  {
    forall from: real
      ensures RequestsFrom([], from) == 0 && TokensFrom([], from) == 0
    {
    }
  }

  // ---------- The deques ----------

  /** The deque holds the history after its first `dropped` entries, all of them out of the window. */
  ghost predicate Holds(history: seq<Admission>, dropped: nat, window: seq<Admission>, cutoff: real) {
    && |history| == dropped + |window|
    && (forall k :: 0 <= k < |window| ==> window[k] == history[dropped + k])
    && (forall k :: 0 <= k < dropped ==> history[k].at < cutoff)
  }

  ghost predicate HoldsTimes(history: seq<Admission>, dropped: nat, window: seq<real>, cutoff: real) {
    && |history| == dropped + |window|
    && (forall k :: 0 <= k < |window| ==> window[k] == history[dropped + k].at)
    && (forall k :: 0 <= k < dropped ==> history[k].at < cutoff)
  }

  lemma HoldsNow(history: seq<Admission>, dropped: nat, window: seq<Admission>, now: real, cutoff: real)
    requires Holds(history, dropped, window, cutoff) && InOrder(history)
    requires window != [] ==> window[0].at >= cutoff
    requires forall k :: 0 <= k < |history| ==> history[k].at <= now
    ensures TokensIn(history, cutoff, now) == Total(window)
  {
    assert window == history[dropped..];
    forall k | dropped <= k < |history| ensures Inside(history[k], cutoff, now) {
      assert window[0] == history[dropped] && window[k - dropped] == history[k];
    }
    WindowTotal(history, dropped, cutoff, now);
  }

  lemma HoldsTimesNow(history: seq<Admission>, dropped: nat, window: seq<real>, now: real, cutoff: real)
    requires HoldsTimes(history, dropped, window, cutoff) && InOrder(history)
    requires window != [] ==> window[0] >= cutoff
    requires forall k :: 0 <= k < |history| ==> history[k].at <= now
    ensures RequestsIn(history, cutoff, now) == |window|
  {
    forall k | dropped <= k < |history| ensures Inside(history[k], cutoff, now) {
      assert window[0] == history[dropped].at && window[k - dropped] == history[k].at;
    }
    WindowTotal(history, dropped, cutoff, now);
  }

  lemma DropOne(history: seq<Admission>, dropped: nat, window: seq<Admission>, cutoff: real)
    requires Holds(history, dropped, window, cutoff) && window != [] && window[0].at < cutoff
    ensures Holds(history, dropped + 1, window[1..], cutoff)
  {
    forall k | 0 <= k < |window| - 1 ensures window[1..][k] == history[dropped + 1 + k] {
      assert window[k + 1] == history[dropped + (k + 1)];
    }
  }

  lemma DropOneTime(history: seq<Admission>, dropped: nat, window: seq<real>, cutoff: real)
    requires HoldsTimes(history, dropped, window, cutoff) && window != [] && window[0] < cutoff
    ensures HoldsTimes(history, dropped + 1, window[1..], cutoff)
  {
    forall k | 0 <= k < |window| - 1 ensures window[1..][k] == history[dropped + 1 + k].at {
      assert window[k + 1] == history[dropped + (k + 1)].at;
    }
  }

  /** What the guard of a reservation checks on the deques is what the bounds need. */
  lemma FittingKeepsBounds(history: seq<Admission>, tokensDropped: nat, tokenWindow: seq<Admission>,
      requestsDropped: nat, requestWindow: seq<real>, config: Config, now: real, estimated: nat)
    requires Holds(history, tokensDropped, tokenWindow, now - WINDOW_SECS)
    requires HoldsTimes(history, requestsDropped, requestWindow, now - WINDOW_SECS)
    requires tokenWindow != [] ==> tokenWindow[0].at >= now - WINDOW_SECS
    requires requestWindow != [] ==> requestWindow[0] >= now - WINDOW_SECS
    requires InOrder(history) && (forall k :: 0 <= k < |history| ==> history[k].at <= now)
    requires Total(tokenWindow) + estimated <= config.tokensPerMinute
    requires |requestWindow| < config.requestsPerMinute
    ensures TokensIn(history, now - WINDOW_SECS, now) + estimated <= config.tokensPerMinute
    ensures RequestsIn(history, now - WINDOW_SECS, now) < config.requestsPerMinute
    ensures var after := history + [Admission(now, estimated)];
      && InOrder(after) && (forall k :: 0 <= k < |after| ==> after[k].at <= now)
      && Holds(after, tokensDropped, tokenWindow + [Admission(now, estimated)], now - WINDOW_SECS)
      && HoldsTimes(after, requestsDropped, requestWindow + [now], now - WINDOW_SECS)
    ensures RequestsBounded(history, config) ==> RequestsBounded(history + [Admission(now, estimated)], config)
    ensures TokensBounded(history, config) ==> TokensBounded(history + [Admission(now, estimated)], config)
  {
    HoldsNow(history, tokensDropped, tokenWindow, now, now - WINDOW_SECS);
    HoldsTimesNow(history, requestsDropped, requestWindow, now, now - WINDOW_SECS);
    AdmittingKeepsBounds(history, config, now, estimated);
  }

  /** When every admission is out of the window, an evicted deque is empty. */
  lemma AllGone(history: seq<Admission>, tokensDropped: nat, tokenWindow: seq<Admission>,
      requestsDropped: nat, requestWindow: seq<real>, cutoff: real)
    requires Holds(history, tokensDropped, tokenWindow, cutoff)
    requires HoldsTimes(history, requestsDropped, requestWindow, cutoff)
    requires tokenWindow != [] ==> tokenWindow[0].at >= cutoff
    requires requestWindow != [] ==> requestWindow[0] >= cutoff
    requires forall k :: 0 <= k < |history| ==> history[k].at < cutoff
    ensures tokenWindow == [] && requestWindow == []
  {
  }

  function Max(x: real, y: real): real {
    if y > x then y else x
  }
}
