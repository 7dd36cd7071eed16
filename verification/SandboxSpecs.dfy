/** Which spec a resolve leaves recorded: what an owner opens with is what the id reopens from. */
module SandboxSpecs {
  import opened Messages
  import opened Sandboxes

  lemma PrefixRuns(steps: seq<Step>, k: nat)
    requires Run(steps) && k <= |steps|
    ensures Run(steps[..k])
    decreases |steps|
  {
    if k < |steps| {
      PrefixRuns(steps[..|steps| - 1], k);
      assert steps[..|steps| - 1][..k] == steps[..k];
    } else {
      assert steps[..k] == steps;
    }
  }

  /** The record was this one at some point since resolve `t` began. */
  ghost predicate RecordedSince(steps: seq<Step>, t: nat, record: Record) {
    exists k :: 0 <= k <= |steps| && RecordedAt(steps[..k], t, record)
  }

  ghost predicate RecordedAt(steps: seq<Step>, t: nat, record: Record) {
    Run(steps) && t < |After(steps).resolves| && After(steps).record == Some(record)
  }

  lemma RecordedNow(steps: seq<Step>, t: nat, record: Record)
    requires RecordedAt(steps, t, record)
    ensures RecordedSince(steps, t, record)
  {
    assert steps[..|steps|] == steps;
  }

  lemma RecordedStays(steps: seq<Step>, t: nat, record: Record)
    requires steps != [] && RecordedSince(steps[..|steps| - 1], t, record)
    ensures RecordedSince(steps, t, record)
  {
    var before := steps[..|steps| - 1];
    var k :| 0 <= k <= |before| && RecordedAt(before[..k], t, record);
    assert before[..k] == steps[..k];
  }

  /** A spec to open with: the caller's, or the one recorded with a sandbox under the id. */
  ghost predicate Wanted(steps: seq<Step>, t: nat, spec: Option<Spec>, use: Spec) {
    if spec.Some? then use == spec.value else exists provider :: RecordedSince(steps, t, Record(provider, use))
  }

  ghost predicate Sought(steps: seq<Step>, t: nat, r: Resolve) {
    match r.stage
    case Attaching(seen) => RecordedSince(steps, t, seen)
    case Respeccing(seen) => RecordedSince(steps, t, seen)
    case Opening(_, use) => Wanted(steps, t, r.spec, use)
    case Claiming(_, use, _) => Wanted(steps, t, r.spec, use)
    case _ => true
  }

  lemma SoughtStays(steps: seq<Step>, t: nat, r: Resolve)
    requires steps != [] && Sought(steps[..|steps| - 1], t, r)
    ensures Sought(steps, t, r)
  {
    var before := steps[..|steps| - 1];
    match r.stage
    case Attaching(seen) => RecordedStays(steps, t, seen);
    case Respeccing(seen) => RecordedStays(steps, t, seen);
    case Opening(_, use) => WantedStays(steps, t, r.spec, use);
    case Claiming(_, use, _) => WantedStays(steps, t, r.spec, use);
    case _ =>
  }

  lemma WantedStays(steps: seq<Step>, t: nat, spec: Option<Spec>, use: Spec)
    requires steps != [] && Wanted(steps[..|steps| - 1], t, spec, use)
    ensures Wanted(steps, t, spec, use)
  {
    if spec.None? {
      var provider :| RecordedSince(steps[..|steps| - 1], t, Record(provider, use));
      RecordedStays(steps, t, Record(provider, use));
    }
  }

  predicate Moves(step: Step, t: nat) {
    match step
    case Read(u) => u == t
    case Attach(u) => u == t
    case Respec(u) => u == t
    case Open(u) => u == t
    case Claim(u) => u == t
    case Drop(u) => u == t
    case Cancel(u, _) => u == t
    case _ => false
  }

  lemma OthersKeepResolve(s: State, step: Step, t: nat)
    requires Allowed(s, step) && t < |s.resolves| && !Moves(step, t)
    ensures Next(s, step).resolves[t] == s.resolves[t]
  {
  }

  /** A resolve's own step seeks what it saw, or what its caller named. */
  lemma SoughtMoves(steps: seq<Step>, t: nat)
    requires steps != [] && Run(steps) && t < |After(steps[..|steps| - 1]).resolves|
    requires Moves(steps[|steps| - 1], t)
    requires Sought(steps[..|steps| - 1], t, After(steps[..|steps| - 1]).resolves[t])
    ensures Sought(steps, t, After(steps).resolves[t])
  {
    var before, step := steps[..|steps| - 1], steps[|steps| - 1];
    var s := After(before);
    SoughtStays(steps, t, s.resolves[t]);
    if step.Read? && s.record.Some? {
      RecordedNow(before, t, s.record.value);
      RecordedStays(steps, t, s.record.value);
    }
    if step.Attach? {
      var seen := s.resolves[t].stage.seen;
      assert RecordedSince(steps, t, Record(seen.provider, seen.spec));
    }
  }

  lemma {:induction false} EveryStageIsSought(steps: seq<Step>, t: nat)
    requires Run(steps) && t < |After(steps).resolves|
    ensures Sought(steps, t, After(steps).resolves[t])
  {
    if steps != [] {
      var before, step := steps[..|steps| - 1], steps[|steps| - 1];
      if t < |After(before).resolves| {
        EveryStageIsSought(before, t);
        if Moves(step, t) {
          SoughtMoves(steps, t);
        } else {
          OthersKeepResolve(After(before), step, t);
          SoughtStays(steps, t, After(steps).resolves[t]);
        }
      }
    }
  }

  /** A resolve ends with this step, and holds a sandbox. */
  predicate Ends(steps: seq<Step>, t: nat)
    requires Run(steps)
  {
    && steps != [] && t < |After(steps).resolves| && After(steps).resolves[t].stage.Done?
    && (steps[|steps| - 1] == Attach(t) || steps[|steps| - 1] == Respec(t) || steps[|steps| - 1] == Claim(t))
  }

  /** A resolve that ends with a sandbox found or left the record naming it together with its caller's
      spec; without one, with a spec that was recorded under the id while it resolved. So what an owner
      opens with is what the id is reopened from. */
  lemma HeldWithItsSpec(steps: seq<Step>, t: nat) returns (provider: ProviderId, use: Spec)
    requires Run(steps) && Ends(steps, t)
    ensures After(steps).held == After(steps[..|steps| - 1]).held + {provider}
    ensures RecordedSince(steps, t, Record(provider, use))
    ensures After(steps).resolves[t].spec.Some? ==> use == After(steps).resolves[t].spec.value
    ensures !steps[|steps| - 1].Attach? ==> After(steps).record == Some(Record(provider, use))
    ensures After(steps).resolves[t].spec.None? ==>
              exists other :: RecordedSince(steps[..|steps| - 1], t, Record(other, use))
  {
    var before, step := steps[..|steps| - 1], steps[|steps| - 1];
    var s := After(before);
    EveryStageIsSought(before, t);
    match step
    case Attach(_) =>
      var seen := s.resolves[t].stage.seen;
      provider, use := seen.provider, seen.spec;
      assert RecordedSince(before, t, Record(provider, use));
      RecordedStays(steps, t, seen);
    case Respec(_) =>
      provider, use := s.resolves[t].stage.seen.provider, s.resolves[t].spec.value;
      RecordedNow(steps, t, Record(provider, use));
    case Claim(_) =>
      provider, use := s.resolves[t].stage.provider, s.resolves[t].stage.use;
      RecordedNow(steps, t, Record(provider, use));
  }
}
