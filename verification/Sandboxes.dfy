/** Keyed sandboxes: any number of workers resolve one id through its record in a shared store,
    while the backend reclaims sandboxes, the owner closes them and resolves are cancelled. */
module Sandboxes {
  import opened Messages

  /** A sandbox's provider id, unique for ever: its place among all that were opened. */
  type ProviderId = nat

  datatype Spec = Spec(backend: string, settings: string)

  datatype Record = Record(provider: ProviderId, spec: Spec)

  function IdOf(record: Option<Record>): Option<ProviderId> {
    if record.Some? then Some(record.value.provider) else None
  }

  /** Compare and set: the record changes only if it still names `expected`. */
  function Claimed(record: Option<Record>, expected: Option<ProviderId>, provider: ProviderId,
        spec: Spec): Option<Record> {
    if IdOf(record) == expected then Some(Record(provider, spec)) else record
  }

  class SandboxStore {
    var records: map<string, Record>

    function Get(id: string): Option<Record>
      reads this
    {
      if id in records then Some(records[id]) else None
    }

    constructor ()
      ensures records == map[]
    {
      records := map[];
    }

    method Claim(id: string, expected: Option<ProviderId>, provider: ProviderId, spec: Spec)
      returns (held: Option<Record>)
      modifies this
      ensures held == Get(id) == Claimed(old(Get(id)), expected, provider, spec)
      ensures forall other :: other != id ==> Get(other) == old(Get(other))
    {
      var current := Get(id);
      if IdOf(current) == expected {
        records := records[id := Record(provider, spec)];
      }
      held := Get(id);
    }

    method Forget(id: string)
      modifies this
      ensures Get(id) == None
      ensures forall other :: other != id ==> Get(other) == old(Get(other))
    {
      records := records - {id};
    }
  }

  // ---------- Workers ----------

  /** Where a resolve is; `expected` is what its read of the record named. */
  datatype Stage =
    | Reading
    | Attaching(seen: Record)
    | Respeccing(seen: Record)
    | Opening(expected: Option<ProviderId>, use: Spec)
    | Claiming(expected: Option<ProviderId>, use: Spec, provider: ProviderId)
    | Dropping(provider: ProviderId, ends: bool)
    | Done

  /** A resolve: the spec it opens with, when its caller gives one; how often the record had
      changed when it began and at its last read; and how often it went round. */
  datatype Resolve = Resolve(spec: Option<Spec>, stage: Stage, began: nat, readAt: nat, loops: nat)

  datatype State = State(
    record: Option<Record>,
    /** The backend each sandbox was opened on. */
    backends: seq<string>,
    gone: set<ProviderId>,
    closing: set<ProviderId>,
    held: set<ProviderId>,
    resolves: seq<Resolve>,
    /** Resolves whose claim was recorded, and records the owner had forgotten. */
    won: set<nat>,
    forgotten: nat)

  const Init := State(None, [], {}, {}, {}, [], {}, 0)

  datatype Step =
    | Start(spec: Option<Spec>)
    | Read(t: nat)
    | Attach(t: nat)
    | Respec(t: nat)
    | Open(t: nat)
    | Claim(t: nat)
    | Drop(t: nat)
    | Cancel(t: nat, landed: bool)
    | Reclaim(provider: ProviderId)
    | Close(handle: Option<ProviderId>)
    | FinishClose(provider: ProviderId)

  /** How often the record came to name another sandbox, or none. */
  function Changes(s: State): nat {
    |s.won| + s.forgotten
  }

  function Put(s: State, t: nat, stage: Stage): State
    requires t < |s.resolves|
  {
    s.(resolves := s.resolves[t := s.resolves[t].(stage := stage)])
  }

  /** The record is not what it was: look again. */
  function Again(s: State, t: nat): State
    requires t < |s.resolves|
  {
    s.(resolves := s.resolves[t := s.resolves[t].(stage := Reading, loops := s.resolves[t].loops + 1)])
  }

  /** A backend finds what it opened and nobody reclaimed or closed. */
  predicate Attachable(s: State, use: Spec, provider: ProviderId) {
    provider < |s.backends| && s.backends[provider] == use.backend && provider !in s.gone
  }

  predicate At(s: State, t: nat) {
    t < |s.resolves| && !s.resolves[t].stage.Done?
  }

  predicate Allowed(s: State, step: Step) {
    match step
    case Start(spec) => true
    case Read(t) => At(s, t) && s.resolves[t].stage.Reading?
    case Attach(t) => At(s, t) && s.resolves[t].stage.Attaching?
    case Respec(t) => At(s, t) && s.resolves[t].stage.Respeccing? && s.resolves[t].spec.Some?
    case Open(t) => At(s, t) && s.resolves[t].stage.Opening?
    case Claim(t) => At(s, t) && s.resolves[t].stage.Claiming?
    case Drop(t) => At(s, t) && s.resolves[t].stage.Dropping?
    case Cancel(t, landed) =>
      && At(s, t) && !s.resolves[t].stage.Dropping?
      && (landed ==> (s.resolves[t].stage.Claiming? && IdOf(s.record) == s.resolves[t].stage.expected)
                     || (s.resolves[t].stage.Respeccing? && s.resolves[t].spec.Some?
                         && IdOf(s.record) == Some(s.resolves[t].stage.seen.provider)))
    case Reclaim(provider) => provider < |s.backends|
    case Close(handle) => handle.Some? ==> handle.value in s.held
    case FinishClose(provider) => provider in s.closing
  }

  function Next(s: State, step: Step): State
    requires Allowed(s, step)
  {
    match step
    case Start(spec) => s.(resolves := s.resolves + [Resolve(spec, Reading, Changes(s), Changes(s), 0)])
    case Read(t) =>
      var resolve := s.resolves[t];
      var stage := if s.record.Some? then Attaching(s.record.value)
                   else if resolve.spec.Some? then Opening(None, resolve.spec.value)
                   else Done;
      s.(resolves := s.resolves[t := resolve.(stage := stage, readAt := Changes(s))])
    case Attach(t) =>
      var seen := s.resolves[t].stage.seen;
      var spec := s.resolves[t].spec;
      var use := if spec.Some? then spec.value else seen.spec;
      if !Attachable(s, use, seen.provider) then Put(s, t, Opening(Some(seen.provider), use))
      else if spec.Some? && spec.value != seen.spec then Put(s, t, Respeccing(seen))
      else Put(s, t, Done).(held := s.held + {seen.provider})
    case Respec(t) =>
      var provider := s.resolves[t].stage.seen.provider;
      if IdOf(s.record) != Some(provider) then Again(s, t)
      else Put(s, t, Done).(record := Claimed(s.record, Some(provider), provider, s.resolves[t].spec.value),
                            held := s.held + {provider})
    case Open(t) =>
      var stage := s.resolves[t].stage;
      Put(s, t, Claiming(stage.expected, stage.use, |s.backends|)).(backends := s.backends + [stage.use.backend])
    case Claim(t) =>
      var stage := s.resolves[t].stage;
      if IdOf(s.record) != stage.expected then
        Put(s, t, Dropping(stage.provider, s.record.None? && s.resolves[t].spec.None?)).(
          closing := s.closing + {stage.provider})
      else
        Put(s, t, Done).(record := Claimed(s.record, stage.expected, stage.provider, stage.use),
                         held := s.held + {stage.provider}, won := s.won + {t})
    case Drop(t) =>
      var stage := s.resolves[t].stage;
      (if stage.ends then Put(s, t, Done) else Again(s, t)).(gone := s.gone + {stage.provider})
    case Cancel(t, landed) =>
      var stage := s.resolves[t].stage;
      if stage.Claiming? then
        var dropping := Put(s, t, Dropping(stage.provider, true)).(closing := s.closing + {stage.provider});
        if landed then dropping.(record := Claimed(s.record, stage.expected, stage.provider, stage.use),
            won := s.won + {t})
        else dropping
      else if landed then
        Put(s, t, Done).(record := Claimed(s.record, Some(stage.seen.provider), stage.seen.provider,
            s.resolves[t].spec.value))
      else Put(s, t, Done)
    case Reclaim(provider) => s.(gone := s.gone + {provider})
    case Close(handle) =>
      s.(record := None,
         forgotten := s.forgotten + if s.record.Some? then 1 else 0,
         closing := s.closing + (if s.record.Some? then {s.record.value.provider}
             else {}) + (if handle.Some? then {handle.value} else {}))
    case FinishClose(provider) => s.(gone := s.gone + {provider})
  }

  function After(steps: seq<Step>): State
    requires Run(steps)
    decreases |steps|, 1
  {
    if steps == [] then Init else Next(After(steps[..|steps| - 1]), steps[|steps| - 1])
  }

  predicate Run(steps: seq<Step>)
    decreases |steps|, 0
  {
    steps == [] || (Run(steps[..|steps| - 1]) && Allowed(After(steps[..|steps| - 1]), steps[|steps| - 1]))
  }

  /** A look, for an open that names another backend, at a recorded sandbox that is not gone. */
  predicate Crosses(s: State, step: Step) {
    && step.Attach? && Allowed(s, step)
    && var r := s.resolves[step.t];
      && r.spec.Some? && r.spec.value.backend != r.stage.seen.spec.backend
      && r.stage.seen.provider !in s.gone
  }

  /** Such a look at a sandbox that nobody is closing either. */
  predicate Strands(s: State, step: Step) {
    Crosses(s, step) && s.resolves[step.t].stage.seen.provider !in s.closing
  }

  /** Such a look, or an owner's close. */
  predicate Parts(s: State, step: Step) {
    Crosses(s, step) || step.Close?
  }

  /** None of the steps after the first `from` is a bad one. */
  predicate Never(steps: seq<Step>, from: nat, bad: (State, Step) -> bool)
    requires Run(steps)
  {
    |steps| <= from
    || (Never(steps[..|steps| - 1], from, bad) && !bad(After(steps[..|steps| - 1]), steps[|steps| - 1]))
  }

  // ---------- What the workers keep ----------

  /** A sandbox that has been recorded: it still is, or it is gone or being closed. */
  predicate Settled(s: State, provider: ProviderId) {
    IdOf(s.record) == Some(provider) || provider in s.gone || provider in s.closing
  }

  predicate Names(stage: Stage, provider: ProviderId) {
    (stage.Attaching? || stage.Respeccing?) && stage.seen.provider == provider
  }

  predicate Brings(stage: Stage, provider: ProviderId) {
    stage.Claiming? && stage.provider == provider
  }

  /** Nobody but its opener can have met this sandbox. */
  ghost predicate Unmet(s: State, provider: ProviderId) {
    && provider !in s.held
    && IdOf(s.record) != Some(provider)
    && forall t :: 0 <= t < |s.resolves| ==> !Names(s.resolves[t].stage, provider)
  }

  /** What a read found: the spec recorded with a sandbox names the backend it runs on. */
  predicate SeenOk(s: State, seen: Record) {
    && seen.provider < |s.backends| && Settled(s, seen.provider)
    && seen.spec.backend == s.backends[seen.provider]
  }

  /** The sandbox to be replaced, if any, is gone or being closed. */
  predicate Replaceable(s: State, expected: Option<ProviderId>) {
    expected.Some? ==> expected.value in s.gone || expected.value in s.closing
  }

  ghost predicate StageOk(s: State, t: nat)
    requires t < |s.resolves|
  {
    var r := s.resolves[t];
    match r.stage
    case Attaching(seen) => SeenOk(s, seen)
    case Respeccing(seen) => SeenOk(s, seen) && (r.spec.Some? ==> r.spec.value.backend == seen.spec.backend)
    case Opening(expected, use) => Replaceable(s, expected)
    case Claiming(expected, use, provider) =>
      && Replaceable(s, expected)
      && provider < |s.backends| && use.backend == s.backends[provider]
      && Unmet(s, provider) && provider !in s.closing
      && forall u :: 0 <= u < |s.resolves| && u != t ==> !Brings(s.resolves[u].stage, provider)
    case Dropping(provider, ends) => provider in s.closing
    case _ => true
  }

  ghost predicate StagesOk(s: State) {
    forall t :: 0 <= t < |s.resolves| ==> StageOk(s, t)
  }

  ghost predicate WithOpener(s: State, provider: ProviderId) {
    exists t :: 0 <= t < |s.resolves| && Brings(s.resolves[t].stage, provider)
  }

  ghost predicate Accounted(s: State) {
    forall provider :: 0 <= provider < |s.backends| ==> Settled(s, provider) || WithOpener(s, provider)
  }

  ghost predicate HandlesOk(s: State) {
    && (forall provider :: provider in s.held ==> provider < |s.backends| && Settled(s, provider))
    && (forall provider :: provider in s.closing ==> provider < |s.backends|)
    && (forall provider :: provider in s.gone ==> provider < |s.backends|)
    && (s.record.Some? ==> SeenOk(s, s.record.value))
  }

  ghost predicate Safe(s: State) {
    StagesOk(s) && Accounted(s) && HandlesOk(s)
  }

  /** Nothing but the resolves and the handles given out has changed. */
  lemma AccountedStays(s: State, s': State)
    requires Accounted(s) && s'.backends == s.backends
    requires forall provider :: 0 <= provider < |s.backends| && Settled(s, provider) ==> Settled(s', provider)
    requires forall t :: 0 <= t < |s.resolves| && s.resolves[t].stage.Claiming? ==>
               Settled(s', s.resolves[t].stage.provider)
                   || (t < |s'.resolves| && s'.resolves[t].stage == s.resolves[t].stage)
    ensures Accounted(s')
  {
    forall provider | 0 <= provider < |s.backends| ensures Settled(s', provider) || WithOpener(s', provider) {
      if !Settled(s, provider) {
        var t :| 0 <= t < |s.resolves| && Brings(s.resolves[t].stage, provider);
        assert t < |s'.resolves| && s'.resolves[t].stage == s.resolves[t].stage
            ==> Brings(s'.resolves[t].stage, provider);
      }
    }
  }

  lemma SafeStart(s: State, spec: Option<Spec>)
    requires Safe(s)
    ensures Safe(Next(s, Start(spec)))
  {
    var s' := Next(s, Start(spec));
    forall t | 0 <= t < |s'.resolves| ensures StageOk(s', t) {
      assert t < |s.resolves| ==> StageOk(s, t);
    }
    AccountedStays(s, s');
  }

  lemma SafeRead(s: State, t: nat)
    requires Safe(s) && Allowed(s, Read(t))
    ensures Safe(Next(s, Read(t)))
  {
    var s' := Next(s, Read(t));
    forall u | 0 <= u < |s'.resolves| ensures StageOk(s', u) {
      assert StageOk(s, u);
      assert s'.resolves[t].stage.Attaching? ==> IdOf(s.record) == Some(s'.resolves[t].stage.seen.provider);
    }
    AccountedStays(s, s');
  }

  /** A resolve of a seen record finds it replaceable, or still to be claimed anew. */
  lemma SafeSeen(s: State, t: nat, stage: Stage)
    requires Safe(s) && t < |s.resolves| && s.resolves[t].stage.Attaching?
    requires stage.Opening? || stage == Respeccing(s.resolves[t].stage.seen)
    requires stage.Opening? ==> Replaceable(s, stage.expected)
    requires stage.Respeccing? ==>
               s.resolves[t].spec.Some? ==> s.resolves[t].spec.value.backend == stage.seen.spec.backend
    ensures Safe(Put(s, t, stage))
  {
    var s' := Put(s, t, stage);
    assert StageOk(s, t);
    forall u | 0 <= u < |s'.resolves| ensures StageOk(s', u) {
      assert StageOk(s, u);
    }
    AccountedStays(s, s');
  }

  lemma SafeHeld(s: State, t: nat)
    requires Safe(s) && t < |s.resolves| && s.resolves[t].stage.Attaching?
    ensures Safe(Put(s, t, Done).(held := s.held + {s.resolves[t].stage.seen.provider}))
  {
    var provider := s.resolves[t].stage.seen.provider;
    var s' := Put(s, t, Done).(held := s.held + {provider});
    assert StageOk(s, t);
    assert Names(s.resolves[t].stage, provider);
    forall u | 0 <= u < |s'.resolves| ensures StageOk(s', u) {
      assert StageOk(s, u);
    }
    AccountedStays(s, s');
  }

  lemma SafeAttach(s: State, t: nat)
    requires Safe(s) && Allowed(s, Attach(t)) && !Strands(s, Attach(t))
    ensures Safe(Next(s, Attach(t)))
  {
    var seen := s.resolves[t].stage.seen;
    var spec := s.resolves[t].spec;
    var use := if spec.Some? then spec.value else seen.spec;
    assert StageOk(s, t);
    if !Attachable(s, use, seen.provider) {
      SafeSeen(s, t, Opening(Some(seen.provider), use));
    } else if spec.Some? && spec.value != seen.spec {
      SafeSeen(s, t, Respeccing(seen));
    } else {
      SafeHeld(s, t);
    }
  }

  lemma SafeRespec(s: State, t: nat)
    requires Safe(s) && Allowed(s, Respec(t))
    ensures Safe(Next(s, Respec(t)))
  {
    hide Attachable, Changes;
    var s' := Next(s, Respec(t));
    assert StageOk(s, t);
    assert Names(s.resolves[t].stage, s.resolves[t].stage.seen.provider);
    forall u | 0 <= u < |s'.resolves| ensures StageOk(s', u) {
      assert StageOk(s, u);
    }
    AccountedStays(s, s');
  }

  lemma SafeOpen(s: State, t: nat)
    requires Safe(s) && Allowed(s, Open(t))
    ensures Safe(Next(s, Open(t)))
  {
    var s' := Next(s, Open(t));
    var newest := |s.backends|;
    forall u | 0 <= u < |s.resolves| && u != t
      ensures !Brings(s'.resolves[u].stage, newest) && !Names(s'.resolves[u].stage, newest)
    {
      assert StageOk(s, u);
    }
    assert StageOk(s, t);
    assert Unmet(s', newest);
    forall u | 0 <= u < |s'.resolves| ensures StageOk(s', u) {
      assert StageOk(s, u);
    }
    forall provider | 0 <= provider < |s'.backends| ensures Settled(s', provider) || WithOpener(s', provider) {
      if provider == newest {
        assert Brings(s'.resolves[t].stage, provider);
      } else if !Settled(s, provider) {
        var u :| 0 <= u < |s.resolves| && Brings(s.resolves[u].stage, provider);
        assert Brings(s'.resolves[u].stage, provider);
      }
    }
  }

  lemma SafeClaim(s: State, t: nat)
    requires Safe(s) && Allowed(s, Claim(t))
    ensures Safe(Next(s, Claim(t)))
  {
    hide Attachable, Changes;
    var s' := Next(s, Claim(t));
    var provider := s.resolves[t].stage.provider;
    assert StageOk(s, t);
    assert Brings(s.resolves[t].stage, provider);
    forall u | 0 <= u < |s'.resolves| ensures StageOk(s', u) {
      assert StageOk(s, u);
    }
    AccountedStays(s, s');
  }

  lemma SafeCancelClaim(s: State, t: nat, landed: bool)
    requires Safe(s) && Allowed(s, Cancel(t, landed)) && s.resolves[t].stage.Claiming?
    ensures Safe(Next(s, Cancel(t, landed)))
  {
    hide Attachable, Changes;
    var s' := Next(s, Cancel(t, landed));
    assert StageOk(s, t);
    assert Brings(s.resolves[t].stage, s.resolves[t].stage.provider);
    forall u | 0 <= u < |s'.resolves| ensures StageOk(s', u) {
      assert StageOk(s, u);
    }
    AccountedStays(s, s');
  }

  lemma SafeCancelOther(s: State, t: nat, landed: bool)
    requires Safe(s) && Allowed(s, Cancel(t, landed)) && !s.resolves[t].stage.Claiming?
    ensures Safe(Next(s, Cancel(t, landed)))
  {
    hide Attachable, Changes;
    var s' := Next(s, Cancel(t, landed));
    assert StageOk(s, t);
    forall u | 0 <= u < |s'.resolves| ensures StageOk(s', u) {
      assert StageOk(s, u);
    }
    AccountedStays(s, s');
  }

  lemma SafeCancel(s: State, t: nat, landed: bool)
    requires Safe(s) && Allowed(s, Cancel(t, landed))
    ensures Safe(Next(s, Cancel(t, landed)))
  {
    hide Safe, Next;
    if s.resolves[t].stage.Claiming? {
      SafeCancelClaim(s, t, landed);
    } else {
      SafeCancelOther(s, t, landed);
    }
  }

  lemma SafeDrop(s: State, t: nat)
    requires Safe(s) && Allowed(s, Drop(t))
    ensures Safe(Next(s, Drop(t)))
  {
    hide Attachable, Changes;
    var s' := Next(s, Drop(t));
    assert StageOk(s, t);
    forall u | 0 <= u < |s'.resolves| ensures StageOk(s', u) {
      assert StageOk(s, u);
    }
    AccountedStays(s, s');
  }

  lemma SafeElsewhere(s: State, step: Step)
    requires Safe(s) && Allowed(s, step) && (step.Reclaim? || step.Close? || step.FinishClose?)
    ensures Safe(Next(s, step))
  {
    var s' := Next(s, step);
    forall u | 0 <= u < |s'.resolves| ensures StageOk(s', u) {
      assert StageOk(s, u);
    }
    AccountedStays(s, s');
  }

  lemma SafeNext(s: State, step: Step)
    requires Safe(s) && Allowed(s, step) && !Strands(s, step)
    ensures Safe(Next(s, step))
  {
    match step
    case Start(spec) => SafeStart(s, spec);
    case Read(t) => SafeRead(s, t);
    case Attach(t) => SafeAttach(s, t);
    case Respec(t) => SafeRespec(s, t);
    case Open(t) => SafeOpen(s, t);
    case Claim(t) => SafeClaim(s, t);
    case Drop(t) => SafeDrop(s, t);
    case Cancel(t, landed) => SafeCancel(s, t, landed);
    case _ => SafeElsewhere(s, step);
  }

  lemma {:induction false} EveryRunIsSafe(steps: seq<Step>)
    requires Run(steps) && Never(steps, 0, Strands)
    ensures Safe(After(steps))
  {
    if steps != [] {
      var last := |steps| - 1;
      EveryRunIsSafe(steps[..last]);
      SafeNext(After(steps[..last]), steps[last]);
    }
  }

  /** A sandbox that is neither recorded, nor with its opener, nor being closed, nor gone. */
  ghost predicate Stray(s: State) {
    exists provider :: 0 <= provider < |s.backends| && !Settled(s, provider) && !WithOpener(s, provider)
  }

  /** While every look at a live sandbox names its backend, every sandbox opened is the recorded
      one, still with its opener before the claim, being closed, or gone. */
  lemma NoSandboxIsStray(steps: seq<Step>, provider: ProviderId)
    requires Run(steps) && Never(steps, 0, Strands) && provider < |After(steps).backends|
    ensures var s := After(steps);
      IdOf(s.record) == Some(provider) || WithOpener(s, provider) || provider in s.closing || provider in s.gone
  {
    EveryRunIsSafe(steps);
  }

  // ---------- Without an owner's close ----------

  predicate Current(s: State, provider: ProviderId) {
    IdOf(s.record) == Some(provider) || provider in s.gone
  }

  predicate StageCurrent(s: State, stage: Stage) {
    match stage
    case Attaching(seen) => Current(s, seen.provider)
    case Respeccing(seen) => Current(s, seen.provider)
    case Opening(expected, _) => expected.Some? ==> expected.value in s.gone
    case Claiming(expected, _, _) => expected.Some? ==> expected.value in s.gone
    case _ => true
  }

  /** Whatever a caller holds or a resolve has seen is the recorded sandbox or gone. */
  ghost predicate Single(s: State) {
    && (forall provider :: provider in s.held ==> Current(s, provider))
    && forall t :: 0 <= t < |s.resolves| ==> StageCurrent(s, s.resolves[t].stage)
  }

  lemma SingleNext(s: State, step: Step)
    requires Safe(s) && Single(s) && Allowed(s, step) && !Parts(s, step)
    ensures Single(Next(s, step))
  {
    var s' := Next(s, step);
    assert step.Attach? || step.Claim? ==> StageOk(s, step.t);
    forall t | 0 <= t < |s'.resolves| ensures StageCurrent(s', s'.resolves[t].stage) {
      assert t < |s.resolves| ==> StageCurrent(s, s.resolves[t].stage);
    }
  }

  lemma {:induction false} EveryRunIsSingle(steps: seq<Step>)
    requires Run(steps) && Never(steps, 0, Parts)
    ensures Safe(After(steps)) && Single(After(steps))
  {
    if steps != [] {
      var last := |steps| - 1;
      EveryRunIsSingle(steps[..last]);
      SafeNext(After(steps[..last]), steps[last]);
      SingleNext(After(steps[..last]), steps[last]);
    }
  }

  ghost predicate TwoLive(s: State) {
    exists p, q :: p in s.held && q in s.held && p !in s.gone && q !in s.gone && p != q
  }

  /** With no owner's close, and every look at a sandbox that is not gone naming its backend, all
      callers that hold a live sandbox hold the same one, whatever was cancelled. */
  lemma OneLiveSandbox(steps: seq<Step>, p: ProviderId, q: ProviderId)
    requires Run(steps) && Never(steps, 0, Parts)
    requires var s := After(steps); p in s.held && q in s.held && p !in s.gone && q !in s.gone
    ensures p == q
  {
    EveryRunIsSingle(steps);
    var s := After(steps);
    assert Current(s, p) && Current(s, q);
  }

  /** Two callers hold different live sandboxes only while one of the two is being closed; and that
      takes an owner's close, or a look for another backend at a sandbox that is being closed. */
  lemma OneLiveUnlessClosing(steps: seq<Step>, p: ProviderId, q: ProviderId)
    requires Run(steps) && Never(steps, 0, Strands)
    requires var s := After(steps); p in s.held && q in s.held && p !in s.gone && q !in s.gone && p != q
    ensures (p in After(steps).closing || q in After(steps).closing) && !Never(steps, 0, Parts)
  {
    EveryRunIsSafe(steps);
    var s := After(steps);
    assert Settled(s, p) && Settled(s, q);
    if Never(steps, 0, Parts) {
      OneLiveSandbox(steps, p, q);
    }
  }

  // ---------- Progress ----------

  /** What the record named when the resolve last read it. */
  function Expected(stage: Stage): Option<ProviderId> {
    match stage
    case Attaching(seen) => Some(seen.provider)
    case Respeccing(seen) => Some(seen.provider)
    case Opening(expected, _) => expected
    case Claiming(expected, _, _) => expected
    case _ => None
  }

  predicate Looking(stage: Stage) {
    stage.Attaching? || stage.Respeccing? || stage.Opening? || stage.Claiming?
  }

  /** Every time round was paid for by a change of the record since the resolve began. */
  predicate PaceOk(r: Resolve, record: Option<Record>, changes: nat) {
    && r.began <= r.readAt <= changes
    && r.loops <= changes - r.began
    && (Looking(r.stage) ==>
          r.loops <= r.readAt - r.began && (changes == r.readAt ==> IdOf(record) == Expected(r.stage)))
    && (r.stage.Dropping? && !r.stage.ends ==> r.loops < changes - r.began)
  }

  ghost predicate Paced(s: State) {
    forall t :: 0 <= t < |s.resolves| ==> PaceOk(s.resolves[t], s.record, Changes(s))
  }

  /** A resolve wins one claim at most. */
  ghost predicate WonOk(s: State) {
    forall t :: t in s.won ==>
      0 <= t < |s.resolves| && (s.resolves[t].stage.Done?
          || (s.resolves[t].stage.Dropping? && s.resolves[t].stage.ends))
  }

  /** The record names another sandbox only at the price of a change. */
  lemma NotYetWon(s: State, t: nat)
    requires WonOk(s) && At(s, t) && s.resolves[t].stage.Claiming?
    ensures t !in s.won && |s.won + {t}| == |s.won| + 1
  {
  }

  lemma ChangesCount(s: State, step: Step)
    requires Allowed(s, step) && WonOk(s)
    ensures var s' := Next(s, step);
      Changes(s') >= Changes(s) && (IdOf(s'.record) != IdOf(s.record) ==> Changes(s') > Changes(s))
  {
    hide WonOk, Attachable;
    if step.Claim? || (step.Cancel? && s.resolves[step.t].stage.Claiming?) {
      NotYetWon(s, step.t);
    }
  }

  lemma PaceStays(r: Resolve, record: Option<Record>, changes: nat, record': Option<Record>, changes': nat)
    requires PaceOk(r, record, changes) && changes <= changes'
    requires IdOf(record') != IdOf(record) ==> changes < changes'
    ensures PaceOk(r, record', changes')
  {
  }

  predicate Looks(step: Step) {
    step.Read? || step.Attach? || step.Respec? || step.Open?
  }

  /** The resolve that looks, or waits, keeps its pace. */
  lemma PaceLooks(s: State, step: Step, t: nat)
    requires Allowed(s, step) && Looks(step)
    requires t < |s.resolves| && PaceOk(s.resolves[t], s.record, Changes(s))
    ensures PaceOk(Next(s, step).resolves[t], Next(s, step).record, Changes(Next(s, step)))
  {
    hide Attachable;
  }

  lemma PaceClaims(s: State, step: Step, t: nat)
    requires Allowed(s, step) && (step.Claim? || step.Drop? || step.Cancel?) && step.t == t
    requires Changes(Next(s, step)) >= Changes(s)
    requires IdOf(Next(s, step).record) != IdOf(s.record) ==> Changes(Next(s, step)) > Changes(s)
    requires PaceOk(s.resolves[t], s.record, Changes(s))
    ensures PaceOk(Next(s, step).resolves[t], Next(s, step).record, Changes(Next(s, step)))
  {
    hide Attachable, Changes;
  }

  /** The resolve a step moves keeps its pace. */
  lemma PaceMoves(s: State, step: Step, t: nat)
    requires Allowed(s, step) && WonOk(s) && t < |s.resolves| && PaceOk(s.resolves[t], s.record, Changes(s))
    ensures PaceOk(Next(s, step).resolves[t], Next(s, step).record, Changes(Next(s, step)))
  {
    hide WonOk, Attachable, PaceOk, Changes, IdOf, Claimed;
    ChangesCount(s, step);
    if Looks(step) {
      PaceLooks(s, step, t);
    } else if (step.Claim? || step.Drop? || step.Cancel?) && step.t == t {
      PaceClaims(s, step, t);
    } else {
      var s' := Next(s, step);
      assert s'.resolves[t] == s.resolves[t];
      PaceStays(s.resolves[t], s.record, Changes(s), s'.record, Changes(s'));
    }
  }

  lemma WonNext(s: State, step: Step)
    requires WonOk(s) && Allowed(s, step)
    ensures WonOk(Next(s, step))
  {
  }

  lemma PacedNext(s: State, step: Step)
    requires Paced(s) && WonOk(s) && Allowed(s, step)
    ensures Paced(Next(s, step)) && WonOk(Next(s, step))
  {
    var s' := Next(s, step);
    WonNext(s, step);
    forall t | 0 <= t < |s'.resolves| ensures PaceOk(s'.resolves[t], s'.record, Changes(s')) {
      if t < |s.resolves| {
        PaceMoves(s, step, t);
      }
    }
  }

  lemma {:induction false} EveryRunIsPaced(steps: seq<Step>)
    requires Run(steps)
    ensures Paced(After(steps)) && WonOk(After(steps))
  {
    if steps != [] {
      var last := |steps| - 1;
      EveryRunIsPaced(steps[..last]);
      PacedNext(After(steps[..last]), steps[last]);
    }
  }

  lemma {:induction false} AtMost(s: set<nat>, n: nat)
    requires forall t :: t in s ==> t < n
    ensures |s| <= n
  {
    if n > 0 {
      AtMost(s - {n - 1}, n - 1);
    }
  }

  /** A resolve goes round again only if the record came to name another sandbox since its read,
      so it goes round no more often than there are resolves and closes together. */
  lemma ResolvesComeToAnEnd(steps: seq<Step>, t: nat)
    requires Run(steps) && t < |After(steps).resolves|
    ensures var s := After(steps);
      s.resolves[t].loops <= Changes(s) - s.resolves[t].began && Changes(s) <= |s.resolves| + s.forgotten
  {
    EveryRunIsPaced(steps);
    var s := After(steps);
    AtMost(s.won, |s.resolves|);
  }

  // ---------- A changed backend ----------

  lemma OneMore(steps: seq<Step>, step: Step) returns (more: seq<Step>)
    requires Run(steps) && Allowed(After(steps), step)
    ensures more == steps + [step] && Run(more) && After(more) == Next(After(steps), step)
  {
    more := steps + [step];
    assert more[..|steps|] == steps;
  }

  /** One resolve that opens and records its sandbox. */
  lemma FirstOpen(first: Spec) returns (steps: seq<Step>)
    ensures Run(steps)
    ensures After(steps) == State(Some(Record(0, first)), [first.backend], {}, {}, {0},
                                  [Resolve(Some(first), Done, 0, 0, 0)], {0}, 0)
    ensures forall k :: 0 <= k < |steps| && steps[k].Start? && steps[k].spec.Some? ==> steps[k].spec.value == first
  {
    steps := [];
    steps := OneMore(steps, Start(Some(first)));
    steps := OneMore(steps, Read(0));
    steps := OneMore(steps, Open(0));
    steps := OneMore(steps, Claim(0));
  }

  /** Reopening an id on another backend strands the live sandbox it had: held, and neither
      recorded, nor with an opener, nor being closed. */
  lemma ChangedBackendStrands(first: Spec, second: Spec) returns (steps: seq<Step>)
    requires first.backend != second.backend
    ensures Run(steps)
    ensures var s := After(steps);
      && {0, 1} <= s.held && 0 !in s.gone && 1 !in s.gone && s.closing == {}
      && !Settled(s, 0) && !WithOpener(s, 0)
  {
    steps := FirstOpen(first);
    steps := OneMore(steps, Start(Some(second)));
    steps := OneMore(steps, Read(1));
    steps := OneMore(steps, Attach(1));
    steps := OneMore(steps, Open(1));
    steps := OneMore(steps, Claim(1));
  }

  /** A run that goes on with no further bad step. */
  ghost predicate GoesOn(steps: seq<Step>, more: seq<Step>, bad: (State, Step) -> bool) {
    Run(steps + more) && Never(steps + more, |steps|, bad)
  }

  lemma GoesOnNone(steps: seq<Step>, bad: (State, Step) -> bool)
    requires Run(steps)
    ensures GoesOn(steps, [], bad) && After(steps + []) == After(steps)
  {
    assert steps + [] == steps;
  }

  lemma GoesOnMore(steps: seq<Step>, more: seq<Step>, step: Step, bad: (State, Step) -> bool)
    returns (longer: seq<Step>)
    requires GoesOn(steps, more, bad)
    requires Allowed(After(steps + more), step) && !bad(After(steps + more), step)
    ensures longer == more + [step] && GoesOn(steps, longer, bad)
    ensures After(steps + longer) == Next(After(steps + more), step)
  {
    longer := more + [step];
    assert steps + longer == steps + more + [step];
    assert (steps + longer)[..|steps + more|] == steps + more;
  }

  lemma {:induction false} NeverJoins(steps: seq<Step>, more: seq<Step>, bad: (State, Step) -> bool)
    requires Run(steps) && Never(steps, 0, bad) && GoesOn(steps, more, bad)
    ensures Never(steps + more, 0, bad)
  {
    if more == [] {
      assert steps + more == steps;
    } else {
      var last := |more| - 1;
      assert (steps + more)[..|steps + more| - 1] == steps + more[..last];
      NeverJoins(steps, more[..last], bad);
    }
  }

  lemma NeverOne(steps: seq<Step>, step: Step, bad: (State, Step) -> bool)
    requires Run(steps) && Never(steps, 0, bad) && Allowed(After(steps), step) && !bad(After(steps), step)
    ensures Run(steps + [step]) && Never(steps + [step], 0, bad)
  {
    assert (steps + [step])[..|steps|] == steps;
  }

  lemma StrandedBy(steps: seq<Step>, t: nat) returns (more: seq<Step>)
    requires Run(steps) && Never(steps, 0, Strands)
    requires Allowed(After(steps), Attach(t)) && Strands(After(steps), Attach(t))
    ensures GoesOn(steps + [Attach(t)], more, Strands) && Stray(After(steps + [Attach(t)] + more))
  {
    EveryRunIsSafe(steps);
    var s := After(steps);
    var seen := s.resolves[t].stage.seen;
    assert StageOk(s, t);
    var looked := OneMore(steps, Attach(t));
    GoesOnNone(looked, Strands);
    more := GoesOnMore(looked, [], Open(t), Strands);
    more := GoesOnMore(looked, more, Claim(t), Strands);
    var s' := After(looked + more);
    assert !Settled(s', seen.provider);
    forall u | 0 <= u < |s'.resolves| ensures !Brings(s'.resolves[u].stage, seen.provider) {
      assert StageOk(s, u) && Names(s.resolves[t].stage, seen.provider);
    }
  }

  /** Exactly such a look leads to a stray sandbox: after any run without one, the next look can be
      followed by steps none of which is such a look to a stray sandbox, if and only if it is one. */
  lemma LookStrandsIff(steps: seq<Step>, t: nat)
    requires Run(steps) && Never(steps, 0, Strands) && Allowed(After(steps), Attach(t))
    ensures Strands(After(steps), Attach(t)) <==>
            exists more :: GoesOn(steps + [Attach(t)], more, Strands) && Stray(After(steps + [Attach(t)] + more))
  {
    if Strands(After(steps), Attach(t)) {
      var more := StrandedBy(steps, t);
    } else {
      forall more | GoesOn(steps + [Attach(t)], more, Strands) ensures !Stray(After(steps + [Attach(t)] + more)) {
        NeverOne(steps, Attach(t), Strands);
        NeverJoins(steps + [Attach(t)], more, Strands);
        EveryRunIsSafe(steps + [Attach(t)] + more);
      }
    }
  }

  /** Another caller attaches to the recorded sandbox. */
  lemma AttachesBeside(steps: seq<Step>, t: nat, seen: Record) returns (more: seq<Step>)
    requires Run(steps) && At(After(steps), t)
    requires var s := After(steps); s.record == Some(seen) && Attachable(s, seen.spec, seen.provider)
    ensures GoesOn(steps, more, Parts)
    ensures var s := After(steps);
      var s' := After(steps + more);
      && At(s', t) && s'.resolves[t] == s.resolves[t] && seen.provider in s'.held
      && s'.record == s.record && s'.backends == s.backends && s'.gone == s.gone
  {
    hide Never, Changes;
    var u := |After(steps).resolves|;
    GoesOnNone(steps, Parts);
    more := GoesOnMore(steps, [], Start(None), Parts);
    more := GoesOnMore(steps, more, Read(u), Parts);
    more := GoesOnMore(steps, more, Attach(u), Parts);
  }

  /** A sandbox is opened and recorded in place of one that a caller holds. */
  lemma OpensBeside(steps: seq<Step>, done: seq<Step>, t: nat, use: Spec) returns (more: seq<Step>)
    requires GoesOn(steps, done, Parts)
    requires var s := After(steps + done);
      && At(s, t) && s.resolves[t].stage == Opening(IdOf(s.record), use)
      && s.record.Some? && s.record.value.provider in s.held && s.record.value.provider !in s.gone
      && s.record.value.provider < |s.backends| && |s.backends| !in s.gone
    ensures GoesOn(steps, more, Parts) && TwoLive(After(steps + more))
  {
    hide Never, Changes, Attachable;
    var s := After(steps + done);
    more := GoesOnMore(steps, done, Open(t), Parts);
    more := GoesOnMore(steps, more, Claim(t), Parts);
    var s' := After(steps + more);
    assert s.record.value.provider in s'.held && |s.backends| in s'.held;
  }

  lemma PartedBy(steps: seq<Step>, t: nat) returns (more: seq<Step>)
    requires Run(steps) && Never(steps, 0, Parts)
    requires Allowed(After(steps), Attach(t)) && Crosses(After(steps), Attach(t))
    ensures GoesOn(steps + [Attach(t)], more, Parts) && TwoLive(After(steps + [Attach(t)] + more))
  {
    hide Never, Changes, TwoLive, GoesOn;
    EveryRunIsSingle(steps);
    var s := After(steps);
    assert StageOk(s, t) && StageCurrent(s, s.resolves[t].stage);
    assert s.record.Some? && SeenOk(s, s.record.value);
    var looked := OneMore(steps, Attach(t));
    more := AttachesBeside(looked, t, s.record.value);
    more := OpensBeside(looked, more, t, s.resolves[t].spec.value);
  }

  /** With no owner's close, exactly a look that crosses leads to two live sandboxes in use. */
  lemma LookPartsIff(steps: seq<Step>, t: nat)
    requires Run(steps) && Never(steps, 0, Parts) && Allowed(After(steps), Attach(t))
    ensures Crosses(After(steps), Attach(t)) <==>
            exists more :: GoesOn(steps + [Attach(t)], more, Parts) && TwoLive(After(steps + [Attach(t)] + more))
  {
    if Crosses(After(steps), Attach(t)) {
      var more := PartedBy(steps, t);
    } else {
      forall more | GoesOn(steps + [Attach(t)], more, Parts) ensures !TwoLive(After(steps + [Attach(t)] + more)) {
        NeverOne(steps, Attach(t), Parts);
        NeverJoins(steps + [Attach(t)], more, Parts);
        EveryRunIsSingle(steps + [Attach(t)] + more);
      }
    }
  }
}
