/** Whose figures a rate limiter records: every reservation has its own, and a correction rewrites
    the last admission, whichever reservation that belongs to. */
module RateLedger {
  import opened Messages
  import opened RateWindows

  /** A reservation's estimate and its own figure, the actual one once it reported it; and the
      reservations whose correction did not land on their own admission. They are told apart by the
      place of their admission. */
  datatype Ledger = Ledger(estimates: seq<nat>, own: seq<nat>, misplaced: set<nat>)

  /** A reservation commits a figure other than its estimate. */
  predicate Corrects(estimated: nat, actual: Option<nat>) {
    actual.Some? && actual.value != estimated
  }

  /** The last admission takes a correction, if the deque still has one. */
  function Corrected(history: seq<Admission>, held: bool, actual: nat): (r: seq<Admission>)
    ensures |r| == |history|
  {
    if !held || history == [] then history
    else history[|history| - 1 := Admission(history[|history| - 1].at, actual)]
  }

  /** Whether a correction by reservation `i` lands on its own admission. */
  predicate LandsOnOwn(history: seq<Admission>, held: bool, i: nat) {
    held && i + 1 == |history|
  }

  function Committed(history: seq<Admission>, held: bool, open: map<nat, nat>, l: Ledger, i: nat,
        actual: Option<nat>): Ledger
    requires i in open && i < |l.own|
  {
    if !Corrects(open[i], actual) then l
    else l.(own := l.own[i := actual.value],
            misplaced := l.misplaced + if LandsOnOwn(history, held, i) then {} else {i})
  }

  function Admitted(l: Ledger, estimated: nat): Ledger {
    Ledger(l.estimates + [estimated], l.own + [estimated], l.misplaced)
  }

  /** Until an earlier reservation's correction went astray, an admission has its reservation's own
      figure, or the estimate when its own correction did. */
  ghost predicate RecordedAt(history: seq<Admission>, l: Ledger, k: nat)
    requires k < |history| == |l.own| == |l.estimates|
  {
    (forall j :: j in l.misplaced ==> j >= k) ==>
      history[k].tokens == if k in l.misplaced then l.estimates[k] else l.own[k]
  }

  ghost predicate Recorded(history: seq<Admission>, open: map<nat, nat>, l: Ledger) {
    && |history| == |l.own| == |l.estimates|
    && (forall i :: i in open ==> i < |history| && l.own[i] == l.estimates[i] == open[i] && i !in l.misplaced)
    && (forall i :: i in l.misplaced ==> i < |history| && l.own[i] != l.estimates[i])
    && (forall k :: 0 <= k < |history| ==> RecordedAt(history, l, k))
  }

  lemma AdmittingRecords(history: seq<Admission>, open: map<nat, nat>, l: Ledger, now: real, estimated: nat)
    requires Recorded(history, open, l)
    ensures Recorded(history + [Admission(now, estimated)], open[|history| := estimated], Admitted(l, estimated))
  {
    var after, l' := history + [Admission(now, estimated)], Admitted(l, estimated);
    forall k | 0 <= k < |after| ensures RecordedAt(after, l', k) {
      if k < |history| {
        assert RecordedAt(history, l, k);
      }
    }
  }

  lemma CommittingRecords(history: seq<Admission>, held: bool, open: map<nat, nat>, l: Ledger, i: nat,
        actual: Option<nat>)
    requires Recorded(history, open, l) && i in open
    ensures var after := if Corrects(open[i], actual) then Corrected(history, held, actual.value) else history;
      Recorded(after, open - {i}, Committed(history, held, open, l, i, actual))
  {
    if Corrects(open[i], actual) {
      var after := Corrected(history, held, actual.value);
      var l' := Committed(history, held, open, l, i, actual);
      forall k | 0 <= k < |after| ensures RecordedAt(after, l', k) {
        assert RecordedAt(history, l, k);
      }
    }
  }

  lemma OpenIsPlaced(history: seq<Admission>, open: map<nat, nat>, l: Ledger, i: nat)
    requires Recorded(history, open, l) && i in open
    ensures i < |history| == |l.own|
  {
  }

  /** A correction rewrites the last admission alone, so it rewrites its own if and only if that is
      the last one and the deque is not empty; a reservation that reports its estimate, or nothing,
      rewrites none. */
  lemma CorrectionRewrites(history: seq<Admission>, held: bool, open: map<nat, nat>, l: Ledger, i: nat, actual: nat,
        k: nat)
    requires Recorded(history, open, l) && i in open && Corrects(open[i], Some(actual)) && k < |history|
    ensures var after := Corrected(history, held, actual);
      && (after[k] != history[k] ==> held && k == |history| - 1 && after[k].tokens == actual)
      && (held && k == |history| - 1 ==> after[k] == Admission(history[k].at, actual))
      && (i !in Committed(history, held, open, l, i, Some(actual)).misplaced <==> held && i == |history| - 1)
  {
  }

  /** The recorded figures are the reservations' own if and only if every correction so far landed
      while its own admission was the last and the deque was not empty. */
  lemma RecordedAreOwn(history: seq<Admission>, open: map<nat, nat>, l: Ledger)
    requires Recorded(history, open, l)
    ensures l.misplaced == {} <==> forall k :: 0 <= k < |history| ==> history[k].tokens == l.own[k]
  {
    if l.misplaced == {} {
      forall k | 0 <= k < |history| ensures history[k].tokens == l.own[k] {
        assert RecordedAt(history, l, k);
      }
    } else {
      var first := Least(l.misplaced);
      assert RecordedAt(history, l, first);
      assert history[first].tokens != l.own[first];
    }
  }

  lemma {:induction false} Least(s: set<nat>) returns (least: nat)
    requires s != {}
    ensures least in s && forall j :: j in s ==> j >= least
  {
    var x :| x in s;
    if s == {x} {
      least := x;
    } else {
      var y := Least(s - {x});
      least := if x < y then x else y;
      assert forall j :: j in s ==> j == x || j in s - {x};
    }
  }

  // ---------- Every run ----------

  /** Reservations are admitted, and commit in any order; whether the deque still holds an admission
      at a commit depends on what has been evicted. */
  datatype Event = Admit(now: real, estimated: nat) | Commit(i: nat, actual: Option<nat>, held: bool)

  datatype State = State(history: seq<Admission>, open: map<nat, nat>, ledger: Ledger)

  const Init := State([], map[], Ledger([], [], {}))

  predicate Allowed(s: State, event: Event) {
    event.Commit? ==> event.i in s.open && event.i < |s.ledger.own|
  }

  function Next(s: State, event: Event): State
    requires Allowed(s, event)
  {
    match event
    case Admit(now, estimated) =>
      State(s.history + [Admission(now, estimated)], s.open[|s.history| := estimated], Admitted(s.ledger, estimated))
    case Commit(i, actual, held) =>
      State(if Corrects(s.open[i], actual) then Corrected(s.history, held, actual.value) else s.history,
            s.open - {i}, Committed(s.history, held, s.open, s.ledger, i, actual))
  }

  /** The correction of a commit, if it makes one, lands on its own admission. */
  predicate Lands(s: State, event: Event) {
    event.Commit? && event.i in s.open && Corrects(s.open[event.i], event.actual) ==>
      LandsOnOwn(s.history, event.held, event.i)
  }

  predicate Run(events: seq<Event>)
    decreases |events|, 0
  {
    events == [] || (Run(events[..|events| - 1]) && Allowed(After(events[..|events| - 1]), events[|events| - 1]))
  }

  function After(events: seq<Event>): State
    requires Run(events)
    decreases |events|, 1
  {
    if events == [] then Init else Next(After(events[..|events| - 1]), events[|events| - 1])
  }

  ghost predicate AllLand(events: seq<Event>)
    requires Run(events)
  {
    events == [] || (AllLand(events[..|events| - 1]) && Lands(After(events[..|events| - 1]), events[|events| - 1]))
  }

  lemma {:induction false} RunRecords(events: seq<Event>)
    requires Run(events)
    ensures var s := After(events); Recorded(s.history, s.open, s.ledger)
    ensures AllLand(events) <==> After(events).ledger.misplaced == {}
  {
    if events != [] {
      var last := |events| - 1;
      var s, event := After(events[..last]), events[last];
      RunRecords(events[..last]);
      match event
      case Admit(now, estimated) => AdmittingRecords(s.history, s.open, s.ledger, now, estimated);
      case Commit(i, actual, held) => CommittingRecords(s.history, held, s.open, s.ledger, i, actual);
    }
  }

  /** Over every run, the recorded figures are the reservations' own if and only if every correction
      landed while its own admission was the last one and still in the deque. */
  lemma OwnFiguresIffAllLand(events: seq<Event>)
    requires Run(events)
    ensures var s := After(events);
      && |s.history| == |s.ledger.own|
      && (AllLand(events) <==> forall k :: 0 <= k < |s.history| ==> s.history[k].tokens == s.ledger.own[k])
  {
    RunRecords(events);
    var s := After(events);
    RecordedAreOwn(s.history, s.open, s.ledger);
  }
}
