/** The resolve loop itself, run against a store and a backend that others change under it. */
module SandboxResolve {
  import opened Messages
  import opened Sandboxes

  datatype Error = NobodyOpened | ClosedMeanwhile

  /** One id's record and the backend's sandboxes, shared with other workers. `budget` is how
      often those will still make the record name another sandbox. */
  class World {
    var record: Option<Record>
    var backends: seq<string>
    var gone: set<ProviderId>
    var closing: set<ProviderId>
    var budget: nat
    ghost var changes: nat
    /** How often the others recorded another spec with a sandbox they left there. */
    ghost var respecs: nat
    /** Every record there was, the latest one last. */
    ghost var past: seq<Option<Record>>
    /** What this worker opened. */
    var mine: set<ProviderId>

    ghost predicate Valid()
      reads this
    {
      && (record.Some? ==>
            record.value.provider < |backends| && record.value.spec.backend == backends[record.value.provider])
      && past != [] && past[|past| - 1] == record
    }

    /** Recorded, or gone or being closed. */
    ghost predicate Kept(provider: ProviderId)
      reads this
    {
      IdOf(record) == Some(provider) || provider in gone || provider in closing
    }

    /** The sandbox was opened on another backend than the one an open names. */
    ghost predicate Elsewhere(spec: Option<Spec>, provider: ProviderId)
      reads this
    {
      spec.Some? && provider < |backends| && backends[provider] != spec.value.backend
    }

    /** Kept, and not opened elsewhere. */
    ghost predicate Brought(spec: Option<Spec>, provider: ProviderId)
      reads this
    {
      Kept(provider) && provider < |backends| && !Elsewhere(spec, provider)
    }

    /** What a worker may do to the rest: what is gone stays gone, and the record leaves a sandbox
        only once that is gone or being closed, or for an open that names another backend. */
    twostate predicate Fair(spec: Option<Spec>)
      reads this
    {
      && old(backends) <= backends && old(gone) <= gone && old(closing) <= closing && old(past) <= past
      && (forall provider :: old(Kept(provider)) ==> Kept(provider) || Elsewhere(spec, provider))
    }

    /** The others pay for every change of the record from their budget. */
    twostate predicate Paid()
      reads this
    {
      && changes >= old(changes) && changes + budget == old(changes) + old(budget)
      && (changes == old(changes) ==> IdOf(record) == old(IdOf(record)))
      && respecs >= old(respecs) && (changes == old(changes) && respecs == old(respecs) ==> record == old(record))
    }

    constructor (budget: nat)
      ensures Valid() && record == None && backends == [] && gone == {} && closing == {}
      ensures this.budget == budget && changes == 0 && mine == {} && respecs == 0 && past == [None]
    {
      record, backends, gone, closing := None, [], {}, {};
      this.budget, changes, respecs, mine, past := budget, 0, 0, {}, [None];
    }

    /** Nobody else records what this worker opened. */
    twostate predicate OnlyTheirs()
      reads this
    {
      forall provider :: provider in mine && IdOf(record) == Some(provider) ==> old(IdOf(record)) == Some(provider)
    }

    /** Another's step: to open on any backend, to reclaim, to record a sandbox in place of one that is
        gone or being closed, to close, or to record a live one's new spec. */
    method Other()
      requires Valid()
      modifies this
      ensures Valid() && Fair(None) && Paid() && mine == old(mine) && OnlyTheirs()
    {
      var act: nat, backend: string, settings: string :| act >= 0 && |backend| >= 0 && |settings| >= 0;
      if act == 0 {
        backends := backends + [backend];
      } else if act == 1 && |backends| > 0 {
        var provider: nat :| provider < |backends|;
        gone := gone + {provider};
      } else if act == 2 && budget > 0 && |backends| > 0
        && (record.None? || record.value.provider in gone || record.value.provider in closing) {
        var provider: nat :| provider < |backends|;
        if provider !in mine {
          record := Some(Record(provider, Spec(backends[provider], settings)));
          budget := budget - 1;
          changes := changes + 1;
        }
      } else if act == 3 && budget > 0 && record.Some? {
        closing := closing + {record.value.provider};
        record := None;
        budget := budget - 1;
        changes := changes + 1;
      } else if act == 4 && record.Some? {
        var provider := record.value.provider;
        record := Some(Record(provider, Spec(backends[provider], settings)));
        respecs := respecs + 1;
      }
      past := past + [record];
    }

    /** The others' turn, for as long as it takes. */
    method Others()
      requires Valid()
      modifies this
      ensures Valid() && Fair(None) && Paid() && mine == old(mine) && OnlyTheirs()
    {
      var turns: nat :| turns >= 0;
      while turns > 0
        invariant Valid() && Fair(None) && Paid() && mine == old(mine) && OnlyTheirs()
      {
        Other();
        turns := turns - 1;
      }
    }

    predicate Attached(use: Spec, provider: ProviderId)
      reads this
    {
      provider < |backends| && backends[provider] == use.backend && provider !in gone
    }

    /** The recorded sandbox, if the backend that is asked still has it. */
    method Attach(use: Spec, seen: Option<Record>) returns (attached: bool)
      requires Valid() && (seen.Some? ==> seen.value.provider < |backends|)
      modifies this
      ensures Valid() && Fair(None) && Paid() && mine == old(mine)
      ensures attached == (seen.Some? && Attached(use, seen.value.provider))
    {
      Others();
      attached := seen.Some? && Attached(use, seen.value.provider);
    }

    method Open(use: Spec) returns (provider: ProviderId)
      requires Valid()
      modifies this`backends, this`mine
      ensures Valid() && provider == |old(backends)| && backends == old(backends) + [use.backend]
      ensures mine == old(mine) + {provider}
    {
      provider := |backends|;
      backends := backends + [use.backend];
      mine := mine + {provider};
    }

    method Claim(expected: Option<ProviderId>, provider: ProviderId, spec: Spec) returns (held: Option<Record>)
      requires Valid() && provider < |backends| && spec.backend == backends[provider]
      modifies this`record, this`past
      ensures Valid() && past == old(past) + [record]
      ensures record == held
          == if old(IdOf(record)) == expected then Some(Record(provider, spec)) else old(record)
    {
      record := Claimed(record, expected, provider, spec);
      past := past + [record];
      held := record;
    }

    /** A sandbox opened in place of `expected`, which is gone or on another backend, and recorded if
        the record still names that; if not, the others changed the record since `readAt`, and it is
        closed. */
    method OpenAndClaim(expected: Option<ProviderId>, spec: Option<Spec>, use: Spec, ghost readAt: nat)
      returns (provider: ProviderId, held: Option<Record>)
      requires Valid() && (spec.Some? ==> use == spec.value)
      requires expected.Some? ==> expected.value in gone || Elsewhere(spec, expected.value)
      requires readAt <= changes && (changes == readAt ==> IdOf(record) == expected)
      modifies this
      ensures Valid() && Fair(spec) && held == record
      ensures Brought(spec, provider) && mine == old(mine) + {provider}
      ensures changes >= old(changes) && respecs >= old(respecs)
      ensures changes + budget == old(changes) + old(budget)
      ensures held == Some(Record(provider, use)) || (IdOf(held) != Some(provider) && changes > readAt)
    {
      provider := Open(use);
      Others();
      label claiming:
      held := Claim(expected, provider, use);
      assert forall other :: old(Kept(other)) ==> old@claiming(Kept(other));
      assert forall other :: old@claiming(Kept(other)) ==> Kept(other) || Elsewhere(spec, other);
      if held.None? || held.value.provider != provider {
        gone := gone + {provider};
      }
    }

    /** A live sandbox's recorded spec replaced, if the record still names it. */
    method ClaimAgain(provider: ProviderId, spec: Spec, ghost readAt: nat) returns (held: Option<Record>)
      requires Valid() && provider < |backends| && spec.backend == backends[provider]
      requires readAt <= changes && (changes == readAt ==> IdOf(record) == Some(provider))
      modifies this
      ensures Valid() && Fair(None) && held == record && mine == old(mine)
      ensures changes >= old(changes) && respecs >= old(respecs)
      ensures changes + budget == old(changes) + old(budget)
      ensures held == Some(Record(provider, spec)) || (IdOf(held) != Some(provider) && changes > readAt)
    {
      Others();
      label claiming:
      held := Claim(Some(provider), provider, spec);
      assert IdOf(record) == old@claiming(IdOf(record));
    }

    /** From some time on, the record named this sandbox together with the spec it was resolved with. */
    ghost predicate RecordedFrom(from: int, provider: ProviderId, spec: Option<Spec>)
      reads this
    {
      exists k :: 0 <= k < |past| && k >= from && past[k].Some? && past[k].value.provider == provider
                  && (spec.Some? ==> past[k].value.spec == spec.value)
    }

    /** One look at the record, and what follows from it; nothing when it is time to look again,
        because the others changed the record since. */
    method Round(spec: Option<Spec>) returns (r: Option<Result<ProviderId, Error>>)
      requires Valid()
      modifies this
      ensures Valid() && Fair(spec)
      ensures forall provider :: provider in mine - old(mine) ==> Brought(spec, provider)
      ensures changes >= old(changes) && respecs >= old(respecs)
      ensures r.None? ==> budget < old(budget) && changes > old(changes)
      ensures r.Some? && r.value.Ok? ==> RecordedFrom(|old(past)| - 1, r.value.value, spec)
      ensures r.Some? && r.value.Ok? && changes == old(changes) && respecs == old(respecs) ==>
                (spec.Some? || old(record).Some?)
                && record == Some(Record(r.value.value, if spec.Some? then spec.value else old(record).value.spec))
      ensures r.Some? && r.value.Ok? ==> Brought(spec, r.value.value)
      ensures r.Some? && r.value.Err? ==> spec.None? && record.None?
    {
      Others();
      var seen := record;
      ghost var readAt := changes;
      if seen.None? && spec.None? {
        return Some(Err(NobodyOpened));
      }
      var use := if spec.Some? then spec.value else seen.value.spec;
      var attached := Attach(use, seen);
      if attached {
        if spec.Some? && spec.value != seen.value.spec {
          var held := ClaimAgain(seen.value.provider, spec.value, readAt);
          if held.None? || held.value.provider != seen.value.provider {
            return None;
          }
        }
        return Some(Ok(seen.value.provider));
      }
      var provider, held := OpenAndClaim(IdOf(seen), spec, use, readAt);
      if held.None? || held.value.provider != provider {
        if held.None? && spec.None? {
          return Some(Err(ClosedMeanwhile));
        }
        return None;
      }
      return Some(Ok(provider));
    }

    /** The sandbox under the id: the recorded one when the backend still has it, else one opened
        and recorded in its place. It goes round again only when the others changed the record
        since its read, and leaves nothing it opened stray. Nothing the others rely on is left stray
        either, but for sandboxes on another backend than the one it names. What it returns was recorded
        with the spec it names, and with nobody else at the record it is so at the end. */
    method Resolve(spec: Option<Spec>) returns (r: Result<ProviderId, Error>)
      requires Valid()
      modifies this
      ensures Valid() && Fair(spec)
      ensures forall provider :: provider in mine - old(mine) ==> Brought(spec, provider)
      ensures r.Ok? ==> Brought(spec, r.value) && RecordedFrom(|old(past)| - 1, r.value, spec)
      ensures r.Ok? && changes == old(changes) && respecs == old(respecs) ==>
                (spec.Some? || old(record).Some?)
                && record == Some(Record(r.value, if spec.Some? then spec.value else old(record).value.spec))
      ensures r.Err? ==> spec.None? && record.None?
    {
      while true
        invariant Valid() && Fair(spec)
        invariant forall provider :: provider in mine - old(mine) ==> Brought(spec, provider)
        invariant changes > old(changes) || (changes == old(changes) && respecs >= old(respecs)
            && (respecs == old(respecs) ==> record == old(record)))
        decreases budget
      {
        label round:
        var found := Round(spec);
        assert forall provider :: old@round(Brought(spec, provider)) ==> Brought(spec, provider);
        if found.Some? {
          return found.value;
        }
      }
    }
  }
}
