/** A container's startup: it restores the run's prefix, or seeds a new run, one command at a
    time, and may be cut off at any of them. */
module Restore {
  import opened Messages

  datatype Pulled = Files | Empty | PullFailed

  datatype Checked = Present | Missing | CheckFailed

  /** Where the startup is. The two commands of a pair run side by side, so either ends first. */
  datatype Phase =
    | Off
    | Looking(pulled: Option<Pulled>, checked: Option<Checked>)
    | Copying(seeded: Option<Pulled>, copied: Option<bool>)
    | Marking(seedPull: Pulled)
    | Serving

  /** The objects of the run's prefix and of its seed, and the marker beside them. */
  datatype State = State(
    own: set<string>,
    seed: set<string>,
    marker: bool,
    phase: Phase,
    /** The last seed copy that began has finished. */
    complete: bool,
    /** A seed copy began while the marker was there. */
    remarked: bool,
    /** How the last pull onto the disk ended, of the prefix or of the seed. */
    disk: Pulled)

  datatype Step =
    | Boot
    | PullOwn(ok: bool)
    | CheckMarker(ok: bool)
    | Decide
    | CopyOne(name: string)
    | EndCopy(ok: bool)
    | PullSeed(ok: bool)
    | EndSeeding
    | WriteMarker(ok: bool, landed: bool)
    | Push(names: set<string>)
    | Stop
    | EmptyPrefix
    | GrowSeed(names: set<string>)

  function Init(seed: set<string>): State {
    State({}, seed, false, Off, false, false, Empty)
  }

  function PullOf(names: set<string>, ok: bool): Pulled {
    if !ok then PullFailed else if names == {} then Empty else Files
  }

  /** What a startup does once its prefix is pulled and the marker looked for. */
  function Decision(s: State, pulled: Pulled, checked: Checked): State {
    match pulled
    case PullFailed => s.(phase := Off)
    case Files => s.(phase := if checked.Present? then Serving else Off)
    case Empty => s.(phase := Copying(None, None), complete := false, remarked := s.remarked || s.marker)
  }

  predicate Allowed(s: State, step: Step) {
    match step
    case Boot => s.phase.Off?
    case PullOwn(ok) => s.phase.Looking? && s.phase.pulled.None?
    case CheckMarker(ok) => s.phase.Looking? && s.phase.checked.None?
    case Decide => s.phase.Looking? && s.phase.pulled.Some? && s.phase.checked.Some?
    case CopyOne(name) => s.phase.Copying? && s.phase.copied.None? && name in s.seed
    case EndCopy(ok) => s.phase.Copying? && s.phase.copied.None? && (ok ==> s.seed <= s.own)
    case PullSeed(ok) => s.phase.Copying? && s.phase.seeded.None?
    case EndSeeding => s.phase.Copying? && s.phase.seeded.Some? && s.phase.copied.Some?
    case WriteMarker(ok, landed) => s.phase.Marking? && (ok ==> landed)
    case Push(names) => s.phase.Serving?
    case Stop => true
    case EmptyPrefix => s.phase.Off?
    case GrowSeed(names) => s.phase.Off?
  }

  function Next(s: State, step: Step): State
    requires Allowed(s, step)
  {
    match step
    case Boot => s.(phase := Looking(None, None))
    case PullOwn(ok) => s.(phase := Looking(Some(PullOf(s.own, ok)), s.phase.checked), disk := PullOf(s.own, ok))
    case CheckMarker(ok) =>
      s.(phase := Looking(s.phase.pulled, Some(if !ok then CheckFailed else if s.marker then Present else Missing)))
    case Decide => Decision(s, s.phase.pulled.value, s.phase.checked.value)
    case CopyOne(name) => s.(own := s.own + {name})
    case EndCopy(ok) => s.(phase := Copying(s.phase.seeded, Some(ok)), complete := ok)
    case PullSeed(ok) => s.(phase := Copying(Some(PullOf(s.seed, ok)), s.phase.copied), disk := PullOf(s.seed, ok))
    case EndSeeding => s.(phase := if s.phase.copied.value then Marking(s.phase.seeded.value) else Off)
    case WriteMarker(ok, landed) =>
      s.(marker := s.marker || landed, phase := if ok && !s.phase.seedPull.PullFailed? then Serving else Off)
    case Push(names) => s.(own := s.own + names)
    case Stop => s.(phase := Off)
    case EmptyPrefix => s.(own := {})
    case GrowSeed(names) => s.(seed := s.seed + names)
  }

  function After(s: State, steps: seq<Step>): State
    requires Run(s, steps)
    decreases |steps|, 1
  {
    if steps == [] then s else Next(After(s, steps[..|steps| - 1]), steps[|steps| - 1])
  }

  predicate Run(s: State, steps: seq<Step>)
    decreases |steps|, 0
  {
    steps == [] || (Run(s, steps[..|steps| - 1]) && Allowed(After(s, steps[..|steps| - 1]), steps[|steps| - 1]))
  }

  // ---------- What is served was seeded ----------

  ghost predicate Sound(s: State) {
    && (!s.remarked && s.marker ==> s.complete)
    && (s.phase.Looking? && s.phase.checked == Some(Present) ==> s.marker)
    && (s.phase.Copying? && !s.remarked ==> !s.marker)
    && (s.phase.Copying? && s.phase.copied == Some(true) ==> s.complete)
    && (s.phase.Marking? ==> s.complete)
    && (s.phase.Serving? ==> s.marker && (!s.remarked ==> s.complete))
    && DiskSound(s)
  }

  /** What the disk was last pulled from. */
  ghost predicate DiskSound(s: State) {
    match s.phase
    case Looking(pulled, _) => pulled.Some? ==> s.disk == pulled.value
    case Copying(seeded, _) => seeded.Some? ==> s.disk == seeded.value
    case Marking(seedPull) => s.disk == seedPull
    case Serving => !s.disk.PullFailed?
    case Off => true
  }

  lemma {:induction false} EveryStartupIsSound(seed: set<string>, steps: seq<Step>)
    requires Run(Init(seed), steps)
    ensures Sound(After(Init(seed), steps))
  {
    if steps != [] {
      EveryStartupIsSound(seed, steps[..|steps| - 1]);
    }
  }

  /** Over every sequence of startups cut off anywhere, a run that serves has had a complete seed
      copy, its marker is there, and its own pull onto the disk did not fail: a prefix with files from an unfinished one
      is served only if a copy had begun with the marker already there. */
  lemma ServedRunsWereSeeded(seed: set<string>, steps: seq<Step>)
    requires Run(Init(seed), steps) && After(Init(seed), steps).phase.Serving?
    ensures After(Init(seed), steps).complete || After(Init(seed), steps).remarked
    ensures After(Init(seed), steps).marker && !After(Init(seed), steps).disk.PullFailed?
  {
    EveryStartupIsSound(seed, steps);
  }

  // ---------- When a copy begins with the marker there ----------

  /** The marker stands beside a prefix that has been seeded whole. */
  ghost predicate Whole(s: State) {
    && s.seed != {}
    && (s.marker || s.phase.Marking? || s.phase.Serving? ==> s.own != {} && s.complete)
    && (s.phase.Looking? && s.phase.pulled == Some(Empty) ==> s.own == {})
    && (s.phase.Looking? && s.phase.pulled == Some(Files) ==> s.own != {})
    && (s.phase.Looking? && s.phase.checked == Some(Present) ==> s.marker)
    && (s.phase.Copying? ==> !s.marker)
    && (s.phase.Copying? && s.phase.copied == Some(true) ==> s.own != {} && s.complete)
  }

  /** Whoever empties the prefix does so before it is marked, as after a seed copy that was cut off. */
  ghost predicate EmptiedUnmarked(s: State, steps: seq<Step>)
    requires Run(s, steps)
  {
    forall k :: 0 <= k < |steps| && steps[k].EmptyPrefix? ==> UnmarkedAt(s, steps, k)
  }

  ghost predicate UnmarkedAt(s: State, steps: seq<Step>, k: nat)
    requires Run(s, steps) && k <= |steps|
  {
    RunPrefix(s, steps, k);
    !After(s, steps[..k]).marker
  }

  lemma {:induction false} RunPrefix(s: State, steps: seq<Step>, k: nat)
    requires Run(s, steps) && k <= |steps|
    ensures Run(s, steps[..k])
  {
    if k < |steps| {
      RunPrefix(s, steps[..|steps| - 1], k);
      assert steps[..|steps| - 1][..k] == steps[..k];
    } else {
      assert steps[..k] == steps;
    }
  }

  lemma WholeNext(s: State, step: Step)
    requires Whole(s) && Allowed(s, step) && (step.EmptyPrefix? ==> !s.marker)
    ensures Whole(Next(s, step)) && Next(s, step).remarked == s.remarked
  {
    if step.EndCopy? && step.ok {
      var name :| name in s.seed;
      assert name in s.own;
    }
  }

  lemma {:induction false} WholeRun(s: State, steps: seq<Step>)
    requires Run(s, steps) && Whole(s) && EmptiedUnmarked(s, steps)
    ensures Whole(After(s, steps)) && After(s, steps).remarked == s.remarked
  {
    if steps != [] {
      var last := |steps| - 1;
      var init := steps[..last];
      forall k | 0 <= k < last && init[k].EmptyPrefix? ensures UnmarkedAt(s, init, k) {
        assert steps[k] == init[k] && UnmarkedAt(s, steps, k) && init[..k] == steps[..k];
      }
      WholeRun(s, init);
      assert steps[last].EmptyPrefix? ==> UnmarkedAt(s, steps, last);
      WholeNext(After(s, init), steps[last]);
    }
  }

  /** With something in the seed, and a prefix emptied only while it has no marker, no copy ever
      begins with the marker there, so everything served was seeded whole. Emptying a prefix whose
      copy was cut off, to seed it again, is such a run. */
  lemma UnmarkedEmptyingIsSafe(seed: set<string>, steps: seq<Step>)
    requires Run(Init(seed), steps) && seed != {}
    requires EmptiedUnmarked(Init(seed), steps)
    ensures !After(Init(seed), steps).remarked
    ensures After(Init(seed), steps).phase.Serving? ==> After(Init(seed), steps).complete
  {
    WholeRun(Init(seed), steps);
  }

  lemma OneMore(s: State, steps: seq<Step>, step: Step) returns (more: seq<Step>)
    requires Run(s, steps) && Allowed(After(s, steps), step)
    ensures more == steps + [step] && Run(s, more) && After(s, more) == Next(After(s, steps), step)
    ensures EmptiedUnmarked(s, steps) && (step.EmptyPrefix? ==> !After(s, steps).marker) ==> EmptiedUnmarked(s, more)
  {
    more := steps + [step];
    assert more[..|steps|] == steps;
    if EmptiedUnmarked(s, steps) && (step.EmptyPrefix? ==> !After(s, steps).marker) {
      forall k | 0 <= k < |more| && more[k].EmptyPrefix? ensures UnmarkedAt(s, more, k) {
        if k < |steps| {
          assert UnmarkedAt(s, steps, k) && more[..k] == steps[..k];
        }
      }
    }
  }

  lemma NoSteps(s: State)
    ensures Run(s, []) && After(s, []) == s && EmptiedUnmarked(s, [])
  {
  }

  /** An empty prefix with its marker still there, and a seed of two objects or more: a startup cut
      off while it copies leaves a part, and the next one serves it. */
  lemma MarkedEmptyPrefixServesPart(s: State, first: string, second: string) returns (steps: seq<Step>)
    requires s.phase.Off? && s.own == {} && s.marker && first in s.seed && second in s.seed && first != second
    ensures Run(s, steps) && EmptyPrefix !in steps
    ensures var t := After(s, steps); t.phase.Serving? && !t.complete && t.own == {first} && second in t.seed
  {
    hide EmptiedUnmarked, Run, After;
    steps := [];
    NoSteps(s);
    steps := OneMore(s, steps, Boot);
    steps := OneMore(s, steps, PullOwn(true));
    steps := OneMore(s, steps, CheckMarker(true));
    steps := OneMore(s, steps, Decide);
    steps := OneMore(s, steps, CopyOne(first));
    steps := OneMore(s, steps, Stop);
    steps := OneMore(s, steps, Boot);
    steps := OneMore(s, steps, PullOwn(true));
    steps := OneMore(s, steps, CheckMarker(true));
    steps := OneMore(s, steps, Decide);
  }

  /** A run that serves what an unfinished seed copy left, with nobody emptying the prefix in it. */
  ghost predicate ServesPart(s: State, steps: seq<Step>) {
    Run(s, steps) && EmptyPrefix !in steps && After(s, steps).phase.Serving? && !After(s, steps).complete
  }

  lemma NeverEmptied(s: State, steps: seq<Step>)
    requires Run(s, steps) && EmptyPrefix !in steps
    ensures EmptiedUnmarked(s, steps)
  {
  }

  /** From an empty prefix and a seed of two objects or more, whatever happened before, a part of the
      seed can be served if and only if the marker is there. */
  lemma PartIsServedIffMarked(s: State, first: string, second: string)
    requires s.phase.Off? && s.own == {} && first in s.seed && second in s.seed && first != second
    ensures s.marker <==> exists steps: seq<Step> :: ServesPart(s, steps)
  {
    if s.marker {
      var steps := MarkedEmptyPrefixServesPart(s, first, second);
      assert ServesPart(s, steps);
    } else {
      forall steps: seq<Step> | Run(s, steps) && EmptyPrefix !in steps ensures !ServesPart(s, steps) {
        NeverEmptied(s, steps);
        WholeRun(s, steps);
      }
    }
  }

  /** A copy cut off, and the prefix emptied. */
  lemma CutAndEmptied(seed: set<string>, first: string) returns (steps: seq<Step>)
    requires first in seed
    ensures Run(Init(seed), steps) && EmptiedUnmarked(Init(seed), steps) && EmptyPrefix in steps
    ensures After(Init(seed), steps) == Init(seed)
  {
    hide EmptiedUnmarked, Run, After;
    var s := Init(seed);
    steps := [];
    NoSteps(s);
    steps := OneMore(s, steps, Boot);
    steps := OneMore(s, steps, PullOwn(true));
    steps := OneMore(s, steps, CheckMarker(true));
    steps := OneMore(s, steps, Decide);
    steps := OneMore(s, steps, CopyOne(first));
    steps := OneMore(s, steps, Stop);
    steps := OneMore(s, steps, EmptyPrefix);
    assert steps[|steps| - 1] == EmptyPrefix;
  }

  /** From an empty prefix without a marker, a startup that nothing cuts off. */
  lemma SeedWhole(s: State, steps: seq<Step>) returns (more: seq<Step>)
    requires Run(s, steps) && EmptiedUnmarked(s, steps)
    requires var t := After(s, steps); t.phase.Off? && t.own == {} && !t.marker
    ensures Run(s, more) && EmptiedUnmarked(s, more) && steps <= more
    ensures var t, t' := After(s, steps), After(s, more);
      t'.phase.Serving? && t'.complete && t'.own == t.seed && t'.remarked == t.remarked
  {
    hide EmptiedUnmarked, Run, After;
    more := OneMore(s, steps, Boot);
    more := OneMore(s, more, PullOwn(true));
    more := OneMore(s, more, CheckMarker(true));
    more := OneMore(s, more, Decide);
    more := CopyAll(s, more, After(s, steps).seed);
    more := OneMore(s, more, EndCopy(true));
    more := OneMore(s, more, PullSeed(true));
    more := OneMore(s, more, EndSeeding);
    more := OneMore(s, more, WriteMarker(true, true));
  }

  lemma MembersStay(before: seq<Step>, after: seq<Step>, step: Step)
    requires before <= after && step in before
    ensures step in after
  {
  }

  /** The recovery that the startup's own message asks for: a copy cut off, the prefix emptied and
      seeded again, for any seed. */
  lemma RecoveryServesWhole(seed: set<string>, first: string) returns (steps: seq<Step>)
    requires first in seed
    ensures Run(Init(seed), steps) && EmptyPrefix in steps && EmptiedUnmarked(Init(seed), steps)
    ensures var t := After(Init(seed), steps); t.phase.Serving? && t.complete && !t.remarked && t.own == seed
  {
    hide EmptiedUnmarked, Run, After;
    var cut := CutAndEmptied(seed, first);
    steps := SeedWhole(Init(seed), cut);
    MembersStay(cut, steps, EmptyPrefix);
  }

  /** Copy the objects of `left` that are still missing. */
  lemma {:induction false} CopyAll(s: State, steps: seq<Step>, left: set<string>) returns (more: seq<Step>)
    requires Run(s, steps) && After(s, steps).phase == Copying(None, None) && left <= After(s, steps).seed
    requires EmptiedUnmarked(s, steps)
    ensures Run(s, more) && steps <= more && EmptiedUnmarked(s, more)
    ensures After(s, more) == After(s, steps).(own := After(s, steps).own + left)
    decreases left
  {
    hide EmptiedUnmarked, Run, After;
    if left == {} {
      more := steps;
    } else {
      var name :| name in left;
      more := OneMore(s, steps, CopyOne(name));
      more := CopyAll(s, more, left - {name});
      assert After(s, steps).own + left == After(s, steps).own + {name} + (left - {name});
    }
  }

  /** Such a prefix is reached by emptying a seeded one, and also from a seed that was empty when
      the run started: its copy counts as finished and is marked. */
  lemma EmptySeedIsMarked() returns (steps: seq<Step>)
    ensures Run(Init({}), steps)
    ensures var t := After(Init({}), steps); t.phase.Off? && t.own == {} && t.marker
  {
    hide EmptiedUnmarked, Run, After;
    var s := Init({});
    steps := [];
    NoSteps(s);
    steps := OneMore(s, steps, Boot);
    steps := OneMore(s, steps, PullOwn(true));
    steps := OneMore(s, steps, CheckMarker(true));
    steps := OneMore(s, steps, Decide);
    steps := OneMore(s, steps, EndCopy(true));
    steps := OneMore(s, steps, PullSeed(true));
    steps := OneMore(s, steps, EndSeeding);
    steps := OneMore(s, steps, WriteMarker(true, true));
    steps := OneMore(s, steps, Stop);
  }
}
