/** One turn as an activity: its attempts can be lost at any store call and started again, and
    what they leave is one turn. */
module Turns {
  import opened Messages
  import opened Views
  import opened Transcript

  /** A row this turn stored. */
  datatype TurnRow = Inbound(text: string) | Reply(calls: seq<string>) | Reminder

  /** How the turn was called. A turn that `measures` stores its messages after the gate and the
      measure; whether its request `crosses` a limit is decided by the request. */
  datatype Turn = Turn(
    inbound: seq<string>,
    index: nat,
    runBefore: nat,
    gated: bool,
    measures: bool,
    crosses: bool,
    taskAgent: bool,
    remindOnce: bool)

  datatype Report =
    | Refused
    | Crossed
    | Calling(calls: seq<string>)
    | Reminded
    | StoppedWithoutFinishing
    | Failed

  /** Where an attempt is: the counts it read, and its next store call. */
  datatype Attempt =
    | NoAttempt
    | Appending(next: nat, thread: nat, run: nat)
    | AtGate(next: nat, thread: nat, run: nat)
    | Measuring(next: nat, thread: nat, run: nat)
    | Asking(thread: nat, run: nat)
    | Storing(calls: seq<string>, thread: nat, run: nat)
    | CountingThread(calls: seq<string>, thread: nat, run: nat, reminded: bool)
    | CountingRun(calls: seq<string>, run: nat, reminded: bool)
    | ClosingTurn(calls: seq<string>, reminded: bool)
    | Over(report: Report)

  datatype State = State(
    rows: seq<TurnRow>,
    threadCount: nat,
    runCount: nat,
    attempt: Attempt,
    attempts: nat,
    /** Model calls made, and those made after an answer was stored. */
    asked: nat,
    askedAgain: nat,
    /** An attempt was lost between its two count updates. */
    splitCount: bool)

  datatype Step =
    | Start
    | AppendNext
    | Gate(refused: bool)
    | Measure
    | Ask(calls: seq<string>)
    | StoreReply
    | CountThread
    | CountRun
    | CloseTurn
    | Fail
    | Lose

  function Init(turn: Turn): State
    requires turn.index >= 1
  {
    State([], turn.index - 1, turn.runBefore, NoAttempt, 0, 0, 0, false)
  }

  // ---------- The steps ----------

  function UserCount(rows: seq<TurnRow>): nat {
    if rows == [] then 0
    else UserCount(rows[..|rows| - 1]) + if rows[|rows| - 1].Reply? then 0 else 1
  }

  /** The position of the turn's last answer, or -1. */
  function LastReply(rows: seq<TurnRow>): (at: int)
    ensures -1 <= at < |rows|
    ensures at >= 0 ==> rows[at].Reply?
    ensures forall k :: at < k < |rows| ==> !rows[k].Reply?
  {
    if rows == [] then -1
    else if rows[|rows| - 1].Reply? then |rows| - 1
    else LastReply(rows[..|rows| - 1])
  }

  predicate HasReply(rows: seq<TurnRow>) {
    LastReply(rows) >= 0
  }

  /** Where a fresh attempt goes once it has `next` of the inbound messages stored. */
  function Begin(turn: Turn, next: nat, thread: nat, run: nat): Attempt {
    if !turn.measures then Appending(next, thread, run)
    else if turn.gated then AtGate(next, thread, run)
    else Measuring(next, thread, run)
  }

  /** A later attempt reads what earlier ones stored; an answer is taken up, not asked for. */
  function Started(s: State, turn: Turn): Attempt {
    if s.attempts > 0 && HasReply(s.rows) then
      var calls := s.rows[LastReply(s.rows)].calls;
      var reminded := Reminder in s.rows[LastReply(s.rows) + 1..];
      if s.threadCount < turn.index then CountingThread(calls, s.threadCount, s.runCount, reminded)
      else ClosingTurn(calls, reminded)
    else Begin(turn, if s.attempts > 0 then UserCount(s.rows) else 0, s.threadCount, s.runCount)
  }

  predicate Allowed(s: State, turn: Turn, step: Step) {
    match step
    case Start => s.attempt.NoAttempt?
    case AppendNext => s.attempt.Appending?
    case Gate(refused) => s.attempt.AtGate?
    case Measure => s.attempt.Measuring?
    case Ask(calls) => s.attempt.Asking?
    case StoreReply => s.attempt.Storing?
    case CountThread => s.attempt.CountingThread?
    case CountRun => s.attempt.CountingRun?
    case CloseTurn => s.attempt.ClosingTurn?
    case Fail => !s.attempt.NoAttempt? && !s.attempt.Over?
    case Lose => !s.attempt.NoAttempt? && !s.attempt.Over?
  }

  function AfterAppends(turn: Turn, attempt: Attempt): Attempt
    requires attempt.Appending?
  {
    if turn.measures || !turn.gated then Asking(attempt.thread, attempt.run)
    else AtGate(attempt.next, attempt.thread, attempt.run)
  }

  function Next(s: State, turn: Turn, step: Step): State
    requires Allowed(s, turn, step)
  {
    match step
    case Start => s.(attempt := Started(s, turn), attempts := s.attempts + 1)
    case AppendNext =>
      if s.attempt.next < |turn.inbound| then
        s.(rows := s.rows + [Inbound(turn.inbound[s.attempt.next])],
            attempt := Appending(s.attempt.next + 1, s.attempt.thread, s.attempt.run))
      else s.(attempt := AfterAppends(turn, s.attempt))
    case Gate(refused) =>
      if refused then s.(attempt := Over(Refused))
      else if turn.measures then s.(attempt := Measuring(s.attempt.next, s.attempt.thread, s.attempt.run))
      else s.(attempt := Asking(s.attempt.thread, s.attempt.run))
    case Measure =>
      if turn.crosses then s.(attempt := Over(Crossed))
      else s.(attempt := Appending(s.attempt.next, s.attempt.thread, s.attempt.run))
    case Ask(calls) =>
      s.(attempt := Storing(calls, s.attempt.thread, s.attempt.run), asked := s.asked + 1,
         askedAgain := s.askedAgain + if HasReply(s.rows) then 1 else 0)
    case StoreReply =>
      s.(rows := s.rows + [Reply(s.attempt.calls)],
         attempt := CountingThread(s.attempt.calls, s.attempt.thread, s.attempt.run, false))
    case CountThread =>
      s.(threadCount := s.attempt.thread + 1,
          attempt := CountingRun(s.attempt.calls, s.attempt.run, s.attempt.reminded))
    case CountRun =>
      s.(runCount := s.attempt.run + 1, attempt := ClosingTurn(s.attempt.calls, s.attempt.reminded))
    case CloseTurn =>
      if s.attempt.calls != [] || !turn.taskAgent then s.(attempt := Over(Calling(s.attempt.calls)))
      else if !turn.remindOnce then s.(attempt := Over(StoppedWithoutFinishing))
      else if s.attempt.reminded then s.(attempt := Over(Reminded))
      else s.(rows := s.rows + [Reminder], attempt := ClosingTurn(s.attempt.calls, true))
    case Fail => s.(attempt := Over(Failed), splitCount := s.splitCount || s.attempt.CountingRun?)
    case Lose => s.(attempt := NoAttempt, splitCount := s.splitCount || s.attempt.CountingRun?)
  }

  function After(turn: Turn, steps: seq<Step>): State
    requires turn.index >= 1 && Run(turn, steps)
    decreases |steps|, 1
  {
    if steps == [] then Init(turn) else Next(After(turn, steps[..|steps| - 1]), turn, steps[|steps| - 1])
  }

  predicate Run(turn: Turn, steps: seq<Step>)
    requires turn.index >= 1
    decreases |steps|, 0
  {
    steps == [] || (Run(turn, steps[..|steps| - 1])
        && Allowed(After(turn, steps[..|steps| - 1]), turn, steps[|steps| - 1]))
  }

  // ---------- What a turn leaves ----------

  function InboundRows(texts: seq<string>): seq<TurnRow> {
    seq(|texts|, k requires 0 <= k < |texts| => Inbound(texts[k]))
  }

  /** The first `n` inbound messages, then the answer, then the reminder. */
  function Shape(turn: Turn, n: nat, reply: seq<seq<string>>, reminded: bool): seq<TurnRow>
    requires n <= |turn.inbound| && |reply| <= 1
  {
    InboundRows(turn.inbound[..n])
    + (if reply == [] then [] else [Reply(reply[0])])
    + (if reminded then [Reminder] else [])
  }

  /** `n` messages are stored and the answer in `reply`, if there is one. */
  ghost predicate Fits(s: State, turn: Turn, n: nat, reply: seq<seq<string>>, reminded: bool) {
    && n <= |turn.inbound| && |reply| <= 1
    && s.rows == Shape(turn, n, reply, reminded)
    && (reply != [] ==> n == |turn.inbound|)
    && (reminded ==> reply == [[]] && turn.taskAgent && turn.remindOnce && s.threadCount == turn.index)
    && (reply == [] ==> s.threadCount == turn.index - 1 && s.runCount == turn.runBefore && !s.splitCount)
    && (s.attempts == 0 ==> n == 0 && reply == [] && s.attempt.NoAttempt?)
    && (turn.measures && turn.crosses ==> n == 0 && reply == [])
    && CountsFit(s, turn, reply)
    && AttemptFits(s, turn, n, reply, reminded)
    && s.askedAgain == 0
  }

  /** The thread counts the turn once; the run follows unless the attempt that counted it was lost
      in between. */
  ghost predicate CountsFit(s: State, turn: Turn, reply: seq<seq<string>>) {
    && turn.index - 1 <= s.threadCount <= turn.index
    && (s.threadCount == turn.index - 1 ==> s.runCount == turn.runBefore && !s.splitCount)
    && (s.threadCount == turn.index ==>
          s.runCount == turn.runBefore + if s.attempt.CountingRun? || s.splitCount then 0 else 1)
    && (s.splitCount ==> !s.attempt.CountingRun?)
  }

  ghost predicate AttemptFits(s: State, turn: Turn, n: nat, reply: seq<seq<string>>, reminded: bool) {
    match s.attempt
    case NoAttempt => true
    case Appending(next, thread, run) =>
      reply == [] && next == n && thread == turn.index - 1 && run == turn.runBefore && (turn.measures ==> !turn.crosses)
    case AtGate(next, thread, run) =>
      reply == [] && turn.gated && next == n && thread == turn.index - 1 && run == turn.runBefore
          && (!turn.measures ==> n == |turn.inbound|)
    case Measuring(next, thread, run) =>
      reply == [] && turn.measures && next == n && thread == turn.index - 1 && run == turn.runBefore
    case Asking(thread, run) =>
      reply == [] && n == |turn.inbound| && thread == turn.index - 1 && run == turn.runBefore
          && (turn.measures ==> !turn.crosses)
    case Storing(calls, thread, run) =>
      reply == [] && n == |turn.inbound| && thread == turn.index - 1 && run == turn.runBefore
          && (turn.measures ==> !turn.crosses)
    case CountingThread(calls, thread, run, told) =>
      reply == [calls] && s.threadCount == thread == turn.index - 1 && run == turn.runBefore && !told && !reminded
    case CountingRun(calls, run, told) =>
      reply == [calls] && s.threadCount == turn.index && run == turn.runBefore && !told && !reminded
    case ClosingTurn(calls, told) => reply == [calls] && s.threadCount == turn.index && told == reminded
    case Over(report) => ReportFits(s, turn, n, reply, reminded, report)
  }

  /** What a report says about what is stored. */
  ghost predicate ReportFits(s: State, turn: Turn, n: nat, reply: seq<seq<string>>, reminded: bool, report: Report) {
    match report
    case Refused => reply == [] && turn.gated && (!turn.measures ==> n == |turn.inbound|)
    case Crossed => reply == [] && n == 0 && turn.measures && turn.crosses
    case Calling(calls) => reply == [calls] && s.threadCount == turn.index && (calls != [] || !turn.taskAgent)
    case Reminded => reply == [[]] && reminded && s.threadCount == turn.index
    case StoppedWithoutFinishing => reply == [[]] && !reminded && turn.taskAgent && !turn.remindOnce
        && s.threadCount == turn.index
    case Failed => true
  }

  // ---------- Every step keeps it ----------

  lemma {:induction false} ShapeCounts(turn: Turn, n: nat, reply: seq<seq<string>>, reminded: bool)
    requires n <= |turn.inbound| && |reply| <= 1 && (reminded ==> reply != [])
    ensures var rows := Shape(turn, n, reply, reminded);
      && (reply == [] ==> UserCount(rows) == n && LastReply(rows) == -1)
      && (reply != [] ==> LastReply(rows) == n && rows[n] == Reply(reply[0])
                          && (Reminder in rows[n + 1..] <==> reminded))
    decreases n
  {
    var rows := Shape(turn, n, reply, reminded);
    if reply != [] {
      assert rows[n] == Reply(reply[0]);
      assert rows[n + 1..] == if reminded then [Reminder] else [];
      assert LastReply(rows) == n;
    } else if n > 0 {
      ShapeCounts(turn, n - 1, [], false);
      assert rows[..n - 1] == Shape(turn, n - 1, [], false);
    }
  }

  lemma StartFits(s: State, turn: Turn, n: nat, reply: seq<seq<string>>, reminded: bool)
    requires Fits(s, turn, n, reply, reminded) && Allowed(s, turn, Start) && turn.index >= 1
    ensures Fits(Next(s, turn, Start), turn, n, reply, reminded)
  {
    ShapeCounts(turn, n, reply, reminded);
  }

  lemma AppendFits(s: State, turn: Turn, n: nat, reply: seq<seq<string>>, reminded: bool) returns (n': nat)
    requires Fits(s, turn, n, reply, reminded) && Allowed(s, turn, AppendNext) && turn.index >= 1
    ensures Fits(Next(s, turn, AppendNext), turn, n', reply, reminded)
  {
    n' := n;
    if n < |turn.inbound| {
      n' := n + 1;
      assert turn.inbound[..n'] == turn.inbound[..n] + [turn.inbound[n]];
    }
  }

  lemma StoreFits(s: State, turn: Turn, n: nat, reply: seq<seq<string>>, reminded: bool)
    requires Fits(s, turn, n, reply, reminded) && Allowed(s, turn, StoreReply) && turn.index >= 1
    ensures Fits(Next(s, turn, StoreReply), turn, n, [s.attempt.calls], reminded)
  {
  }

  lemma CloseFits(s: State, turn: Turn, n: nat, reply: seq<seq<string>>, reminded: bool)
    requires Fits(s, turn, n, reply, reminded) && Allowed(s, turn, CloseTurn) && turn.index >= 1
    ensures Fits(Next(s, turn, CloseTurn), turn, n, reply, s.attempt.calls == [] && turn.taskAgent && turn.remindOnce)
  {
  }

  lemma AskFits(s: State, turn: Turn, calls: seq<string>, n: nat, reply: seq<seq<string>>, reminded: bool)
    requires Fits(s, turn, n, reply, reminded) && Allowed(s, turn, Ask(calls)) && turn.index >= 1
    ensures Fits(Next(s, turn, Ask(calls)), turn, n, reply, reminded)
  {
    hide Shape, LastReply;
    ShapeCounts(turn, n, reply, reminded);
  }

  /** The other steps store nothing. */
  lemma QuietFits(s: State, turn: Turn, step: Step, n: nat, reply: seq<seq<string>>, reminded: bool)
    requires Fits(s, turn, n, reply, reminded) && Allowed(s, turn, step) && turn.index >= 1
    requires step.Gate? || step.Measure? || step.CountThread? || step.CountRun? || step.Fail? || step.Lose?
    ensures Fits(Next(s, turn, step), turn, n, reply, reminded)
  {
    hide Shape, Started, HasReply;
  }

  lemma FitsNext(s: State, turn: Turn, step: Step, n: nat, reply: seq<seq<string>>, reminded: bool)
    returns (n': nat, reply': seq<seq<string>>, reminded': bool)
    requires Fits(s, turn, n, reply, reminded) && Allowed(s, turn, step) && turn.index >= 1
    ensures Fits(Next(s, turn, step), turn, n', reply', reminded')
  {
    hide Fits, Next;
    n', reply', reminded' := n, reply, reminded;
    match step
    case Start =>
      StartFits(s, turn, n, reply, reminded);
    case AppendNext =>
      n' := AppendFits(s, turn, n, reply, reminded);
    case StoreReply =>
      reply' := [s.attempt.calls];
      StoreFits(s, turn, n, reply, reminded);
    case CloseTurn =>
      reminded' := s.attempt.calls == [] && turn.taskAgent && turn.remindOnce;
      CloseFits(s, turn, n, reply, reminded);
    case Ask(calls) =>
      AskFits(s, turn, calls, n, reply, reminded);
    case _ =>
      QuietFits(s, turn, step, n, reply, reminded);
  }

  /** Over every schedule of losses and retries a turn's rows are the first of its messages once
      each in order, at most one answer, and at most one reminder after it. */
  lemma {:induction false} EveryTurnFits(turn: Turn, steps: seq<Step>)
    returns (n: nat, reply: seq<seq<string>>, reminded: bool)
    requires turn.index >= 1 && Run(turn, steps)
    ensures Fits(After(turn, steps), turn, n, reply, reminded)
  {
    if steps == [] {
      n, reply, reminded := 0, [], false;
    } else {
      var last := |steps| - 1;
      n, reply, reminded := EveryTurnFits(turn, steps[..last]);
      n, reply, reminded := FitsNext(After(turn, steps[..last]), turn, steps[last], n, reply, reminded);
    }
  }

  /** A turn that reports an answer has stored all its messages, that answer, and the reminder
      exactly when it says so; the model was never asked once an answer was stored; the thread
      counts it; and the run counts it unless an attempt was lost between the two counts. */
  lemma AnsweredTurnIsWhole(turn: Turn, steps: seq<Step>)
    requires turn.index >= 1 && Run(turn, steps)
    requires var s := After(turn, steps);
      && s.attempt.Over? && !s.attempt.report.Refused? && !s.attempt.report.Crossed? && !s.attempt.report.Failed?
    ensures var s := After(turn, steps);
      var report := s.attempt.report;
      && s.rows == InboundRows(turn.inbound)
                   + [Reply(if report.Calling? then report.calls else [])]
                   + (if report.Reminded? then [Reminder] else [])
      && s.askedAgain == 0
      && s.threadCount == turn.index
      && s.runCount == turn.runBefore + (if s.splitCount then 0 else 1)
  {
    var n, reply, reminded := EveryTurnFits(turn, steps);
    assert turn.inbound[..n] == turn.inbound;
  }

  lemma OneMore(turn: Turn, steps: seq<Step>, step: Step) returns (more: seq<Step>)
    requires turn.index >= 1 && Run(turn, steps) && Allowed(After(turn, steps), turn, step)
    ensures more == steps + [step] && Run(turn, more) && After(turn, more) == Next(After(turn, steps), turn, step)
  {
    more := steps + [step];
    assert more[..|steps|] == steps;
  }

  /** Store the messages from `next` on. */
  lemma {:induction false} AppendAll(turn: Turn, steps: seq<Step>) returns (more: seq<Step>)
    requires turn.index >= 1 && Run(turn, steps) && After(turn, steps).attempt.Appending?
    requires After(turn, steps).attempt.next <= |turn.inbound|
    ensures Run(turn, more)
    ensures var s, s' := After(turn, steps), After(turn, more);
      && s'.attempt == AfterAppends(turn, Appending(|turn.inbound|, s.attempt.thread, s.attempt.run))
      && s' == s.(rows := s'.rows, attempt := s'.attempt) && HasReply(s'.rows) == HasReply(s.rows)
    decreases |turn.inbound| - After(turn, steps).attempt.next
  {
    hide Run, After;
    var s := After(turn, steps);
    more := OneMore(turn, steps, AppendNext);
    if s.attempt.next < |turn.inbound| {
      assert (s.rows + [Inbound(turn.inbound[s.attempt.next])])[..|s.rows|] == s.rows;
      more := AppendAll(turn, more);
    }
  }

  /** A first attempt up to the model call: past the gate and the measure, its messages stored. */
  lemma UpToAsking(turn: Turn) returns (steps: seq<Step>)
    requires turn.index >= 1 && !(turn.measures && turn.crosses)
    ensures Run(turn, steps)
    ensures var s := After(turn, steps);
      && s.attempt == Asking(turn.index - 1, turn.runBefore) && !HasReply(s.rows)
      && s == Init(turn).(rows := s.rows, attempt := s.attempt, attempts := 1)
  {
    hide Run, After;
    NoSteps(turn);
    steps := OneMore(turn, [], Start);
    if turn.measures && turn.gated {
      steps := OneMore(turn, steps, Gate(false));
    }
    if turn.measures {
      steps := OneMore(turn, steps, Measure);
    }
    steps := AppendAll(turn, steps);
    if !turn.measures && turn.gated {
      steps := OneMore(turn, steps, Gate(false));
    }
  }

  lemma NoSteps(turn: Turn)
    requires turn.index >= 1
    ensures Run(turn, []) && After(turn, []) == Init(turn)
  {
  }

  /** The run stays one behind: the attempt that counted the thread is lost before it counts the
      run, and the next one finds the thread counted and reports the answer. */
  lemma LostBetweenCounts(turn: Turn, calls: seq<string>) returns (steps: seq<Step>)
    requires turn.index >= 1 && !(turn.measures && turn.crosses) && calls != []
    ensures Run(turn, steps)
    ensures var s := After(turn, steps);
      s.attempt == Over(Calling(calls)) && s.threadCount == turn.index && s.runCount == turn.runBefore && s.splitCount
  {
    hide Run, After;
    steps := UpToAsking(turn);
    steps := OneMore(turn, steps, Ask(calls));
    ghost var rows := After(turn, steps).rows;
    steps := OneMore(turn, steps, StoreReply);
    steps := OneMore(turn, steps, CountThread);
    steps := OneMore(turn, steps, Lose);
    assert (rows + [Reply(calls)])[|rows|..] == [Reply(calls)];
    steps := OneMore(turn, steps, Start);
    steps := OneMore(turn, steps, CloseTurn);
  }

  /** A turn can report an answer with its run one behind if and only if it can answer at all: it
      does not measure, or its request crosses no limit. */
  lemma RunCanStayBehind(turn: Turn)
    requires turn.index >= 1
    ensures !(turn.measures && turn.crosses) <==>
            exists steps: seq<Step> :: ReportsBehind(turn, steps)
  {
    if !(turn.measures && turn.crosses) {
      var steps := LostBetweenCounts(turn, ["call"]);
      assert ReportsBehind(turn, steps);
    } else {
      forall steps: seq<Step> | Run(turn, steps) ensures !ReportsBehind(turn, steps) {
        var n, reply, reminded := EveryTurnFits(turn, steps);
      }
    }
  }

  ghost predicate ReportsBehind(turn: Turn, steps: seq<Step>)
    requires turn.index >= 1
  {
    && Run(turn, steps)
    && var s := After(turn, steps);
       s.attempt.Over? && s.attempt.report.Calling? && s.threadCount == turn.index && s.runCount == turn.runBefore
  }

  /** A turn past a limit stored nothing, so its messages land after the compaction row. */
  lemma CrossedTurnStoredNothing(turn: Turn, steps: seq<Step>)
    requires turn.index >= 1 && Run(turn, steps) && After(turn, steps).attempt == Over(Crossed)
    ensures After(turn, steps).rows == [] && After(turn, steps).threadCount == turn.index - 1
  {
    var n, reply, reminded := EveryTurnFits(turn, steps);
  }

  // ---------- A refused turn ----------

  /** A turn that does not measure has its messages stored before it can be refused. */
  lemma RefusedTurnKeepsMessages(turn: Turn, steps: seq<Step>)
    requires turn.index >= 1 && Run(turn, steps) && After(turn, steps).attempt == Over(Refused)
    requires !turn.measures
    ensures After(turn, steps).rows == InboundRows(turn.inbound)
  {
    var n, reply, reminded := EveryTurnFits(turn, steps);
    assert turn.inbound[..n] == turn.inbound;
  }

  /** One that measures can be refused with its messages never stored: whenever there are any. */
  lemma RefusalLosesMessages(turn: Turn)
    requires turn.index >= 1 && turn.gated
    ensures (turn.measures && turn.inbound != []) <==>
            exists steps :: Run(turn, steps) && After(turn, steps).attempt == Over(Refused)
                            && After(turn, steps).rows != InboundRows(turn.inbound)
  {
    if turn.measures && turn.inbound != [] {
      var steps := [Start, Gate(true)];
      assert [Start][..0] == [] && Run(turn, []);
      assert Run(turn, [Start]) && After(turn, [Start]) == Next(Init(turn), turn, Start);
      assert steps[..1] == [Start];
      assert Run(turn, steps) && After(turn, steps).rows == [];
    }
    forall steps | Run(turn, steps) && After(turn, steps).attempt == Over(Refused)
        && After(turn, steps).rows != InboundRows(turn.inbound)
      ensures turn.measures && turn.inbound != []
    {
      if !turn.measures {
        RefusedTurnKeepsMessages(turn, steps);
      } else {
        var n, reply, reminded := EveryTurnFits(turn, steps);
      }
    }
  }

  // ---------- Past the gate ----------

  /** The attempt under way was let through by the gate. */
  ghost predicate LetThrough(steps: seq<Step>) {
    exists i :: 0 <= i < |steps| && steps[i] == Gate(false) && forall m :: i < m < |steps| ==> !steps[m].Start?
  }

  /** Where an attempt of a gated turn is once the gate let it through. */
  predicate PastGate(turn: Turn, attempt: Attempt) {
    attempt.Asking? || attempt.Storing? || (turn.measures && (attempt.Measuring? || attempt.Appending?))
  }

  lemma LetThroughStays(steps: seq<Step>)
    requires steps != [] && LetThrough(steps[..|steps| - 1]) && !steps[|steps| - 1].Start?
    ensures LetThrough(steps)
  {
    var before := steps[..|steps| - 1];
    var i :| 0 <= i < |before| && before[i] == Gate(false) && forall m :: i < m < |before| ==> !before[m].Start?;
    forall m | i < m < |steps| ensures !steps[m].Start? {
      assert m < |before| ==> before[m] == steps[m];
    }
    assert steps[i] == Gate(false);
  }

  lemma {:induction false} PastGateWasLetThrough(turn: Turn, steps: seq<Step>)
    requires turn.index >= 1 && turn.gated && Run(turn, steps) && PastGate(turn, After(turn, steps).attempt)
    ensures LetThrough(steps)
  {
    var last := |steps| - 1;
    var s, step := After(turn, steps[..last]), steps[last];
    if PastGate(turn, s.attempt) && !step.Start? {
      PastGateWasLetThrough(turn, steps[..last]);
      LetThroughStays(steps);
    } else {
      assert step == Gate(false);
    }
  }

  /** A gated turn asks the model only in an attempt that the gate let through, so a refused one asks
      nothing; and only when its request crosses no limit, if it measures. */
  lemma AsksPastTheGate(turn: Turn, steps: seq<Step>, calls: seq<string>)
    requires turn.index >= 1 && Run(turn, steps) && Allowed(After(turn, steps), turn, Ask(calls))
    ensures turn.gated ==> LetThrough(steps)
    ensures turn.measures ==> !turn.crosses
  {
    if turn.gated {
      PastGateWasLetThrough(turn, steps);
    }
    var n, reply, reminded := EveryTurnFits(turn, steps);
  }

  /** Once an attempt is refused it is over: what follows before another start asks nothing. */
  lemma RefusedAsksNothing(turn: Turn, steps: seq<Step>, step: Step)
    requires turn.index >= 1 && Run(turn, steps) && steps != [] && steps[|steps| - 1] == Gate(true)
    ensures After(turn, steps).attempt == Over(Refused) && !Allowed(After(turn, steps), turn, step)
  {
  }

  // ---------- A retry measures the same request ----------

  function UserRows(inbound: seq<Message>, first: MessageId): seq<Row> {
    seq(|inbound|, k requires 0 <= k < |inbound| => Row(Some(first + k), inbound[k]))
  }

  lemma ListGrows(rows: seq<Row>, row: Row)
    requires row.message.kind.Conversation?
    ensures LastCompaction(rows + [row]) == LastCompaction(rows)
    ensures ListForModel(rows + [row]) == ListForModel(rows) + [row]
  {
    var all := rows + [row];
    var at := LastCompaction(rows);
    assert all[..|rows|] == rows && LastCompaction(all) == at;
    if at >= 0 {
      assert all[..at] == rows[..at] && all[at..] == rows[at..] + [row];
    }
  }

  lemma ViewOfGrows(list: seq<Row>, row: Row)
    requires row.message.kind.Conversation?
    ensures var before, after := ViewOf(list), ViewOf(list + [row]);
      && after.messages == before.messages + [row.message]
      && after.usageFrom == before.usageFrom && after.compaction == before.compaction
  {
    hide ListForModel;
    ListGrows(list, row);
    assert (list + [row])[..|list|] == list;
  }

  lemma ViewGrows(rows: seq<Row>, row: Row)
    requires row.message.kind.Conversation?
    ensures var before, after := ModelView(rows), ModelView(rows + [row]);
      && after.messages == before.messages + [row.message]
      && after.usageFrom == before.usageFrom && after.compaction == before.compaction
  {
    hide ListForModel, ViewOf, LastCompaction;
    ListGrows(rows, row);
    ViewOfGrows(ListForModel(rows), row);
  }

  lemma StoreOneMore(rows: seq<Row>, inbound: seq<Message>, first: MessageId, n: nat)
    requires 0 < n <= |inbound|
    ensures rows + UserRows(inbound[..n], first)
            == rows + UserRows(inbound[..n - 1], first) + [Row(Some(first + n - 1), inbound[n - 1])]
    ensures inbound[n - 1..] == [inbound[n - 1]] + inbound[n..]
  {
    assert UserRows(inbound[..n], first)
        == UserRows(inbound[..n - 1], first) + [Row(Some(first + n - 1), inbound[n - 1])];
  }

  /** `rest` sent after the view of `rows`. */
  function Request(rows: seq<Row>, rest: seq<Message>): View {
    var view := ModelView(rows);
    view.(messages := view.messages + rest)
  }

  lemma StoredOrSent(rows: seq<Row>, row: Row, rest: seq<Message>)
    requires row.message.kind.Conversation?
    ensures var a, b := Request(rows + [row], rest), Request(rows, [row.message] + rest);
      a.messages == b.messages && a.usageFrom == b.usageFrom && a.compaction == b.compaction
  {
    ViewGrows(rows, row);
    Reassociate(ModelView(rows).messages, row.message, rest);
  }

  lemma Reassociate(view: seq<Message>, message: Message, rest: seq<Message>)
    ensures view + [message] + rest == view + ([message] + rest)
  {
  }

  /** A retry that finds some of its messages stored measures the same request as the attempt
      before it: the stored ones are in the view and the rest is added to it. */
  lemma {:induction false} RetryMeasuresSameRequest(rows: seq<Row>, inbound: seq<Message>, first: MessageId, n: nat)
    requires n <= |inbound| && forall k :: 0 <= k < |inbound| ==> inbound[k].kind.Conversation?
    ensures var before, after := Request(rows, inbound), Request(rows + UserRows(inbound[..n], first), inbound[n..]);
      && after.messages == before.messages
      && after.usageFrom == before.usageFrom && after.compaction == before.compaction
  {
    if n == 0 {
      assert rows + UserRows(inbound[..0], first) == rows;
      assert inbound[0..] == inbound;
    } else {
      RetryMeasuresSameRequest(rows, inbound, first, n - 1);
      var stored := rows + UserRows(inbound[..n - 1], first);
      var row := Row(Some(first + n - 1), inbound[n - 1]);
      StoreOneMore(rows, inbound, first, n);
      StoredOrSent(stored, row, inbound[n..]);
    }
  }
}
