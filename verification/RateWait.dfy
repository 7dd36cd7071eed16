/** How long a rate limiter waits, and how long would have been enough. */
module RateWait {
  import opened RateWindows

  const SLACK: real := 0.1

  /** How many leading entries are older than the cutoff. */
  function Evicted(times: seq<real>, cutoff: real): (n: nat)
    ensures n <= |times|
    ensures forall k :: 0 <= k < n ==> times[k] < cutoff
    ensures n < |times| ==> times[n] >= cutoff
  {
    if times == [] || times[0] >= cutoff then 0
    else
      var n := Evicted(times[1..], cutoff);
      assert forall k :: 0 < k < |times| ==> times[1..][k - 1] == times[k];
      1 + n
  }

  function Times(window: seq<Admission>): (r: seq<real>)
    ensures |r| == |window| && forall k :: 0 <= k < |r| ==> r[k] == window[k].at
  {
    seq(|window|, k requires 0 <= k < |window| => window[k].at)
  }

  ghost predicate Rising(times: seq<real>) {
    forall j, k :: 0 <= j < k < |times| ==> times[j] <= times[k]
  }

  /** Whether a request fits the deques as they are once evicted at `at`. */
  predicate FitsTokens(window: seq<Admission>, config: Config, estimated: nat, at: real) {
    Total(window[Evicted(Times(window), at - WINDOW_SECS)..]) + estimated <= config.tokensPerMinute
  }

  predicate FitsRequests(times: seq<real>, config: Config, at: real) {
    |times| - Evicted(times, at - WINDOW_SECS) < config.requestsPerMinute
  }

  predicate Fits(window: seq<Admission>, times: seq<real>, config: Config, estimated: nat, at: real) {
    FitsTokens(window, config, estimated, at) && FitsRequests(times, config, at)
  }

  /** The first entry up to which `need` tokens are held. */
  function Freeing(window: seq<Admission>, need: nat): (k: nat)
    requires 0 < need <= Total(window)
    ensures k < |window| && Total(window[..k]) < need <= Total(window[..k + 1])
    decreases |window|
  {
    var n := |window| - 1;
    assert window[..n + 1] == window;
    if Total(window[..n]) < need then n
    else
      var k := Freeing(window[..n], need);
      assert window[..n][..k] == window[..k] && window[..n][..k + 1] == window[..k + 1];
      k
  }

  lemma {:induction false} TotalSplits(window: seq<Admission>, n: nat)
    requires n <= |window|
    ensures Total(window) == Total(window[..n]) + Total(window[n..])
  {
    if n == |window| {
      assert window[..n] == window && window[n..] == [];
    } else {
      var last := |window| - 1;
      TotalSplits(window[..last], n);
      assert window[..last][..n] == window[..n] && window[..last][n..] == window[n..][..|window[n..]| - 1];
    }
  }

  lemma {:induction false} TotalGrows(window: seq<Admission>, a: nat, b: nat)
    requires a <= b <= |window|
    ensures Total(window[..a]) <= Total(window[..b])
  {
    if a < b {
      TotalGrows(window, a, b - 1);
      assert window[..b][..b - 1] == window[..b - 1];
    }
  }

  /** Tokens fit exactly once the entry that frees them is older than the window. */
  lemma TokensFitOnceFreed(window: seq<Admission>, config: Config, estimated: nat, at: real)
    requires Rising(Times(window)) && estimated <= config.tokensPerMinute
    requires Total(window) + estimated > config.tokensPerMinute
    ensures var need := Total(window) + estimated - config.tokensPerMinute;
      FitsTokens(window, config, estimated, at) <==> window[Freeing(window, need)].at < at - WINDOW_SECS
  {
    var need := Total(window) + estimated - config.tokensPerMinute;
    var k := Freeing(window, need);
    var n := Evicted(Times(window), at - WINDOW_SECS);
    TotalSplits(window, n);
    if n <= k {
      TotalGrows(window, n, k);
    } else {
      TotalGrows(window, k + 1, n);
    }
  }

  /** With no more requests than the limit, one fits exactly once the oldest is out of the window. */
  lemma RequestsFitOnceFreed(times: seq<real>, config: Config, at: real)
    requires Rising(times) && |times| == config.requestsPerMinute >= 1
    ensures FitsRequests(times, config, at) <==> times[0] < at - WINDOW_SECS
  {
  }

  lemma RequestsFitAnyway(times: seq<real>, config: Config, at: real)
    requires |times| < config.requestsPerMinute
    ensures FitsRequests(times, config, at)
  {
  }

  lemma TokensFitAnyway(window: seq<Admission>, config: Config, estimated: nat, at: real)
    requires Total(window) + estimated <= config.tokensPerMinute
    ensures FitsTokens(window, config, estimated, at)
  {
    TotalSplits(window, Evicted(Times(window), at - WINDOW_SECS));
  }

  /** When the last of the entries that must go was admitted: the one that frees the tokens, the
      oldest request, or the later of the two. */
  function FreedAt(window: seq<Admission>, times: seq<real>, config: Config, estimated: nat): real
    requires estimated <= config.tokensPerMinute && |times| <= config.requestsPerMinute && config.requestsPerMinute >= 1
    requires Total(window) + estimated > config.tokensPerMinute || |times| == config.requestsPerMinute
  {
    if Total(window) + estimated <= config.tokensPerMinute then times[0]
    else
      var freeing := window[Freeing(window, Total(window) + estimated - config.tokensPerMinute)].at;
      if |times| == config.requestsPerMinute then Max(freeing, times[0]) else freeing
  }

  /** A wait is long enough exactly when it is longer than what the window still holds the freeing
      entry for. The whole window and the slack, which is what is always waited, is that bound and
      the slack exactly when the freeing entry was admitted just now. */
  lemma EnoughWait(window: seq<Admission>, times: seq<real>, config: Config, estimated: nat, now: real, wait: real)
    requires Rising(Times(window)) && Rising(times)
    requires estimated <= config.tokensPerMinute && |times| <= config.requestsPerMinute && config.requestsPerMinute >= 1
    requires Total(window) + estimated > config.tokensPerMinute || |times| == config.requestsPerMinute
    ensures var enough := WINDOW_SECS - (now - FreedAt(window, times, config, estimated));
      && (Fits(window, times, config, estimated, now + wait) <==> wait > enough)
      && (WINDOW_SECS + SLACK == enough + SLACK <==> FreedAt(window, times, config, estimated) == now)
  {
    var at := now + wait;
    if Total(window) + estimated > config.tokensPerMinute {
      TokensFitOnceFreed(window, config, estimated, at);
    } else {
      TokensFitAnyway(window, config, estimated, at);
    }
    if |times| == config.requestsPerMinute {
      RequestsFitOnceFreed(times, config, at);
    } else {
      RequestsFitAnyway(times, config, at);
    }
  }

  /** One entry of 59 seconds ago fills the budget: waiting two seconds would do, and the whole
      window and the slack is waited. */
  lemma LongerThanNeeded()
    ensures var config, window := Config(100, 10), [Admission(0.0, 100)];
      && !Fits(window, [0.0], config, 50, 59.0)
      && Fits(window, [0.0], config, 50, 59.0 + 2.0)
      && 2.0 < WINDOW_SECS + SLACK
  {
    var config, window := Config(100, 10), [Admission(0.0, 100)];
    assert window[..0] == [] && Total(window[..0]) == 0 && Total(window) == 100;
    assert window[..1] == window;
    EnoughWait(window, [0.0], config, 50, 59.0, 0.0);
    EnoughWait(window, [0.0], config, 50, 59.0, 2.0);
  }
}
