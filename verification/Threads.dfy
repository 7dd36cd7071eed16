/** Cancelling a thread and everything it started, across agents. */
module Threads {
  import opened Messages

  datatype Key = Key(agentId: string, threadId: string)

  datatype Status = Idle | Active | Failed | Cancelled

  /** A thread names its parent by thread id alone, so children belong to an id. */
  datatype Thread = Thread(parent: Option<string>, status: Status)

  datatype Error = ThreadNotFound

  /** Parent links end: `height` falls from every parent to its child. */
  ghost predicate Acyclic(threads: map<Key, Thread>, height: string -> nat) {
    forall key :: key in threads && threads[key].parent.Some?
        ==> height(key.threadId) < height(threads[key].parent.value)
  }

  function Children(threads: map<Key, Thread>, id: string): set<Key> {
    set key | key in threads && threads[key].parent == Some(id)
  }

  /** `key` descends from the thread id `id`. */
  ghost predicate Below(threads: map<Key, Thread>, height: string -> nat, id: string, key: Key)
    requires Acyclic(threads, height)
    decreases height(id)
  {
    key in Children(threads, id)
    || exists child :: child in Children(threads, id) && Below(threads, height, child.threadId, key)
  }

  ghost function Descendants(threads: map<Key, Thread>, height: string -> nat, id: string): set<Key>
    requires Acyclic(threads, height)
  {
    set key | key in threads && Below(threads, height, id, key)
  }

  /** Every active thread of `keys` cancelled, and no other thread touched. */
  function Mark(threads: map<Key, Thread>, keys: set<Key>): map<Key, Thread> {
    map key | key in threads ::
      if key in keys && threads[key].status.Active? then threads[key].(status := Cancelled) else threads[key]
  }

  /** One thread recorded as cancelled, whatever it was; an unknown one is recorded too. */
  function Record(threads: map<Key, Thread>, key: Key): map<Key, Thread> {
    threads[key := if key in threads then threads[key].(status := Cancelled) else Thread(None, Cancelled)]
  }

  /** What a cancel leaves. */
  ghost function CancelledFrom(threads: map<Key, Thread>, height: string -> nat, root: Key): map<Key, Thread>
    requires Acyclic(threads, height)
  {
    Mark(Record(threads, root), Descendants(threads, height, root.threadId))
  }

  // ---------- Links do not change ----------

  ghost predicate SameLinks(a: map<Key, Thread>, b: map<Key, Thread>) {
    a.Keys == b.Keys && forall key :: key in a ==> a[key].parent == b[key].parent
  }

  lemma {:induction false} BelowSame(a: map<Key, Thread>, b: map<Key, Thread>, height: string -> nat, id: string,
        key: Key)
    requires SameLinks(a, b) && Acyclic(a, height) && Acyclic(b, height)
    ensures Below(a, height, id, key) <==> Below(b, height, id, key)
    decreases height(id)
  {
    assert Children(a, id) == Children(b, id);
    forall child | child in Children(a, id)
      ensures Below(a, height, child.threadId, key) <==> Below(b, height, child.threadId, key)
    {
      BelowSame(a, b, height, child.threadId, key);
    }
  }

  lemma DescendantsSame(a: map<Key, Thread>, b: map<Key, Thread>, height: string -> nat, id: string)
    requires SameLinks(a, b) && Acyclic(a, height) && Acyclic(b, height)
    ensures Descendants(a, height, id) == Descendants(b, height, id)
  {
    forall key | key in a ensures Below(a, height, id, key) <==> Below(b, height, id, key) {
      BelowSame(a, b, height, id, key);
    }
  }

  lemma MarkTwice(threads: map<Key, Thread>, first: set<Key>, second: set<Key>)
    ensures Mark(Mark(threads, first), second) == Mark(threads, first + second)
    ensures SameLinks(threads, Mark(threads, first))
  {
  }

  /** A child and everything below it. */
  ghost function Reached(threads: map<Key, Thread>, height: string -> nat, children: set<Key>): set<Key>
    requires Acyclic(threads, height)
  {
    set key | key in threads
              && (key in children || exists child :: child in children && Below(threads, height, child.threadId, key))
  }

  lemma ReachedOne(threads: map<Key, Thread>, height: string -> nat, children: set<Key>, child: Key)
    requires Acyclic(threads, height) && child in threads
    ensures Reached(threads, height, children + {child})
            == Reached(threads, height, children) + ({child} + Descendants(threads, height, child.threadId))
  {
  }

  lemma ReachedAll(threads: map<Key, Thread>, height: string -> nat, id: string)
    requires Acyclic(threads, height)
    ensures Reached(threads, height, Children(threads, id)) == Descendants(threads, height, id)
  {
  }

  class Stores {
    var threads: map<Key, Thread>

    constructor (threads: map<Key, Thread>)
      ensures this.threads == threads
    {
      this.threads := threads;
    }

    method RecordCancelled(key: Key)
      modifies this
      ensures threads == Record(old(threads), key)
    {
      var thread := if key in threads then threads[key] else Thread(None, Active);
      threads := threads[key := thread.(status := Cancelled)];
    }

    /** Stop a thread and its descendants. `running` says whether the workflow service knows the
        thread; one that neither it nor the store knows is an error. */
    method CancelThread(key: Key, running: bool, ghost height: string -> nat) returns (r: Result<(), Error>)
      requires Acyclic(threads, height)
      modifies this
      ensures r.Err? <==> !running && key !in old(threads)
      ensures r.Err? ==> threads == old(threads)
      ensures r.Ok? ==> threads == CancelledFrom(old(threads), height, key)
      decreases height(key.threadId), 1
    {
      if !running && key !in threads {
        return Err(ThreadNotFound);
      }
      ghost var before := threads;
      RecordCancelled(key);
      UnknownHasNoLinks(before, height, key);
      CancelChildren(key.threadId, height);
      r := Ok(());
    }

    method CancelChildren(id: string, ghost height: string -> nat)
      requires Acyclic(threads, height)
      modifies this
      ensures threads == Mark(old(threads), Descendants(old(threads), height, id))
      decreases height(id), 0
    {
      ghost var before := threads;
      var children := map key | key in threads && threads[key].parent == Some(id) :: threads[key];
      var left := children.Keys;
      ghost var seen: set<Key> := {};
      assert threads == Mark(before, Reached(before, height, seen));
      while left != {}
        invariant seen + left == Children(before, id) && seen !! left
        invariant threads == Mark(before, Reached(before, height, seen))
        decreases left
      {
        var child :| child in left;
        ghost var now := threads;
        MarkTwice(before, Reached(before, height, seen), {});
        if children[child].status == Active {
          var _ := CancelThread(child, true, height);
          CancelOne(before, height, seen, child, now);
        } else {
          CancelChildren(child.threadId, height);
          PassOne(before, height, seen, child, now);
        }
        MoveOne(seen, left, child);
        seen, left := seen + {child}, left - {child};
      }
      assert seen == Children(before, id);
      ReachedAll(before, height, id);
    }
  }

  lemma MoveOne(seen: set<Key>, left: set<Key>, child: Key)
    requires child in left && seen !! left
    ensures (seen + {child}) + (left - {child}) == seen + left && (seen + {child}) !! (left - {child})
  {
  }

  /** An active child: it and everything below it joins what is cancelled. */
  lemma CancelOne(before: map<Key, Thread>, height: string -> nat, seen: set<Key>, child: Key, now: map<Key, Thread>)
    requires Acyclic(before, height) && Acyclic(now, height) && now == Mark(before, Reached(before, height, seen))
    requires child in before && before[child].status.Active?
    ensures CancelledFrom(now, height, child) == Mark(before, Reached(before, height, seen + {child}))
  {
    MarkTwice(before, Reached(before, height, seen), {child} + Descendants(before, height, child.threadId));
    DescendantsSame(before, now, height, child.threadId);
    RecordIsMark(now, child);
    MarkTwice(now, {child}, Descendants(now, height, child.threadId));
    ReachedOne(before, height, seen, child);
  }

  /** A finished child stays, and what is below it joins. */
  lemma PassOne(before: map<Key, Thread>, height: string -> nat, seen: set<Key>, child: Key, now: map<Key, Thread>)
    requires Acyclic(before, height) && Acyclic(now, height) && now == Mark(before, Reached(before, height, seen))
    requires child in before && !before[child].status.Active?
    ensures Mark(now, Descendants(now, height, child.threadId)) == Mark(before, Reached(before, height, seen + {child}))
  {
    MarkTwice(before, Reached(before, height, seen), {child} + Descendants(before, height, child.threadId));
    DescendantsSame(before, now, height, child.threadId);
    FinishedIsNotMarked(now, child, Descendants(now, height, child.threadId));
    ReachedOne(before, height, seen, child);
  }

  lemma RecordIsMark(threads: map<Key, Thread>, key: Key)
    requires key in threads && (threads[key].status.Active? || threads[key].status.Cancelled?)
    ensures Record(threads, key) == Mark(threads, {key})
  {
  }

  lemma FinishedIsNotMarked(threads: map<Key, Thread>, key: Key, keys: set<Key>)
    requires key in threads && !threads[key].status.Active?
    ensures Mark(threads, keys) == Mark(threads, {key} + keys)
  {
  }

  /** Recording a cancel adds no link. */
  lemma UnknownHasNoLinks(threads: map<Key, Thread>, height: string -> nat, key: Key)
    requires Acyclic(threads, height)
    ensures Acyclic(Record(threads, key), height)
    ensures Descendants(Record(threads, key), height, key.threadId) == Descendants(threads, height, key.threadId)
  {
    var after := Record(threads, key);
    forall other | other in after
      ensures Below(after, height, key.threadId, other)
        <==> Below(threads, height, key.threadId, other)
    {
      BelowAfterRecord(threads, height, key, key.threadId, other);
    }
    if key !in threads {
      NotBelow(threads, height, key.threadId, key);
    }
  }

  lemma {:induction false} BelowAfterRecord(threads: map<Key, Thread>, height: string -> nat, key: Key, id: string,
        other: Key)
    requires Acyclic(threads, height) && Acyclic(Record(threads, key), height)
    ensures Below(Record(threads, key), height, id, other) <==> Below(threads, height, id, other)
    decreases height(id)
  {
    var after := Record(threads, key);
    assert Children(after, id) == Children(threads, id);
    forall child | child in Children(threads, id)
      ensures Below(after, height, child.threadId, other) <==> Below(threads, height, child.threadId, other)
    {
      BelowAfterRecord(threads, height, key, child.threadId, other);
    }
  }

  lemma {:induction false} NotBelow(threads: map<Key, Thread>, height: string -> nat, id: string, key: Key)
    requires Acyclic(threads, height) && key !in threads
    ensures !Below(threads, height, id, key)
    decreases height(id)
  {
    forall child | child in Children(threads, id) ensures !Below(threads, height, child.threadId, key) {
      NotBelow(threads, height, child.threadId, key);
    }
  }

  // ---------- What a cancel leaves ----------

  /** The root and every active descendant, those below finished threads too, are cancelled; every
      other thread keeps its status, and no link changes. */
  lemma CancelReachesAll(threads: map<Key, Thread>, height: string -> nat, root: Key, key: Key)
    requires Acyclic(threads, height)
    ensures var after := CancelledFrom(threads, height, root);
      && root in after && after[root].status.Cancelled?
      && (key in threads ==> key in after && after[key].parent == threads[key].parent)
      && (key in threads && key != root ==>
            after[key].status == if Below(threads, height, root.threadId, key) && threads[key].status.Active?
                then Cancelled else threads[key].status)
      && (key in after ==> key in threads || key == root)
  {
  }

  /** Cancelling again changes nothing. */
  lemma CancelAgain(threads: map<Key, Thread>, height: string -> nat, root: Key)
    requires Acyclic(threads, height)
    ensures var after := CancelledFrom(threads, height, root);
      Acyclic(after, height) && CancelledFrom(after, height, root) == after
  {
    hide Below, Children;
    var after := CancelledFrom(threads, height, root);
    UnknownHasNoLinks(threads, height, root);
    MarkTwice(Record(threads, root), Descendants(threads, height, root.threadId), {});
    DescendantsSame(Record(threads, root), after, height, root.threadId);
    assert Record(after, root) == after;
  }
}
