/**
 What a save that succeeds leaves on disk, whatever else happened while its child was at work.
 */
module CrashSave {
  import opened CrashConsistency

  // The child of the save that was started in state s is at work.
  predicate AtWork(s: Store, v: Store) {
    v.child.Saving? && v.child.list == SaveList(s) && v.child.snapshot == s.rev && v.child.commit == |s.journal| - 1 && v.star == s.star
  }

  predicate OneChild(events: seq<Event>) {
    forall i :: 0 <= i < |events| ==> !events[i].Restart? && !events[i].Reap?
  }

  lemma StillAtWork(s: Store, v: Store, e: Event)
    requires Enabled(v, e) && !e.Restart? && !e.Reap? && !v.child.NoChild?
    ensures !Apply(v, e).child.NoChild?
    ensures Apply(v, e).child.Saving? ==> v.child.Saving? && (AtWork(s, v) ==> AtWork(s, Apply(v, e)))
  {
    hide SaveList;
  }

  lemma {:induction false} RunAtWork(s: Store, v: Store, events: seq<Event>)
    requires Inv(v) && IsRun(v, events) && OneChild(events) && !v.child.NoChild? && (v.child.Saving? ==> AtWork(s, v))
    ensures Inv(Run(v, events)) && (Run(v, events).child.Saving? ==> AtWork(s, Run(v, events)))
    decreases events
  {
    if events != [] {
      StillAtWork(s, v, events[0]);
      StepKept(v, events[0]);
      hide Inv, AtWork, Apply, Enabled;
      RunAtWork(s, Apply(v, events[0]), events[1..]);
    }
  }

  // When the child of a save is done, every object that was dirty at the fork is on disk as it was then,
  // and the mark, if it was made, stands at the last record there was then.
  lemma ForkIsSaved(s: Store, events: seq<Event>, marked: bool)
    requires Inv(s) && Enabled(s, StartSave) && IsRun(Apply(s, StartSave), events) && OneChild(events)
    requires Enabled(Run(Apply(s, StartSave), events), ChildDone(marked))
    ensures var u := Apply(Run(Apply(s, StartSave), events), ChildDone(marked));
            && (forall o :: o in s.dirty ==> o in s.rev && o in u.disk && u.disk[o] == s.rev[o])
            && u.star == if marked then |s.journal| - 1 else s.star
  {
    var t := Apply(s, StartSave);
    StepKept(s, StartSave);
    RunAtWork(s, t, events);
    var v := Run(t, events);
    hide Run, IsRun;
    forall o | o in s.dirty ensures o in s.rev && o in v.disk && v.disk[o] == s.rev[o] {
      assert ObjInv(s, o);
      SaveListMembers(s, o);
      WrittenOnDisk(v, o);
    }
    assert Shape(s);
    hide SaveList, Inv;
  }

  lemma WrittenOnDisk(v: Store, o: Obj)
    requires Inv(v) && v.child.Saving? && v.child.written == |v.child.list| && o in v.child.list
    ensures o in v.child.snapshot && o in v.disk && v.disk[o] == v.child.snapshot[o]
  {
    assert ObjInv(v, o);
    assert v.child.list[..v.child.written] == v.child.list;
  }

  // -------------------------------------------------------------------------
  // The order of the files
  // -------------------------------------------------------------------------

  function Rank(kind: Kind): nat {
    match kind
    case Resource => 0
    case Queue => 1
    case Job => 2
  }

  lemma KindOf(s: Store, kind: Kind)
    ensures forall i :: 0 <= i < |SaveListOf(s, kind)| ==> SaveListOf(s, kind)[i].kind == kind
  {
    SelectedMembers(s.table, kind, s.dirty);
    forall i | 0 <= i < |SaveListOf(s, kind)| ensures SaveListOf(s, kind)[i].kind == kind { assert SaveListOf(s, kind)[i] in SaveListOf(s, kind); }
  }

  lemma SavedInOrder(s: Store, i: nat, k: nat)
    requires i < |SaveList(s)| && k < |SaveList(s)| && Rank(SaveList(s)[i].kind) < Rank(SaveList(s)[k].kind)
    ensures i < k
  {
    KindOf(s, Resource);
    KindOf(s, Queue);
    KindOf(s, Job);
    hide SaveListOf;
  }

  // Whenever a crash comes, also in the middle of a save: if the file of an object is written, then so are
  // those of all objects that were dirty at the fork and are read before it, resources first and jobs last.
  lemma ReferredAreWrittenFirst(s: Store, events: seq<Event>, o: Obj, p: Obj)
    requires Inv(s) && Enabled(s, StartSave) && IsRun(Apply(s, StartSave), events) && OneChild(events)
    requires var c := Run(Apply(s, StartSave), events).child; c.Saving? && c.written <= |c.list| && o in c.list[..c.written]
    requires p in s.dirty && Rank(p.kind) < Rank(o.kind)
    ensures var v := Run(Apply(s, StartSave), events); p in s.rev && p in v.disk && v.disk[p] == s.rev[p]
  {
    var t := Apply(s, StartSave);
    StepKept(s, StartSave);
    RunAtWork(s, t, events);
    var v := Run(t, events);
    hide Run, IsRun, Enabled, Apply;
    assert ObjInv(s, p);
    SaveListMembers(s, p);
    hide SaveList, Rank;
    var k :| 0 <= k < v.child.written && v.child.list[..v.child.written][k] == o;
    var i :| 0 <= i < |v.child.list| && v.child.list[i] == p;
    SavedInOrder(s, i, k);
    assert v.child.list[..v.child.written][i] == p;
    assert ObjInv(v, p);
  }

  // -------------------------------------------------------------------------
  // No save for nothing
  // -------------------------------------------------------------------------

  // A kind is flagged only while some object of it is dirty.
  ghost predicate FlaggedForCause(s: Store, kind: Kind) {
    kind in s.dirtyKinds ==> exists o :: o in s.dirty && o.kind == kind
  }

  lemma CauseKept(s: Store, e: Event, kind: Kind)
    requires Enabled(s, e) && FlaggedForCause(s, kind)
    ensures FlaggedForCause(Apply(s, e), kind)
  {
    var t := Apply(s, e);
    if e.StartSave? || e.Restart? { hide SaveList; }
    else {
      assert s.dirty <= t.dirty;
      if e.Reap? && !s.child.ok && kind in t.dirtyKinds && kind !in s.dirtyKinds {
        var o :| o in s.child.list && o.kind == kind;
        assert o in t.dirty;
      }
    }
  }

  lemma {:induction false} RunCause(s: Store, events: seq<Event>, kind: Kind)
    requires IsRun(s, events) && FlaggedForCause(s, kind)
    ensures FlaggedForCause(Run(s, events), kind)
    decreases events
  {
    if events != [] {
      CauseKept(s, events[0], kind);
      hide FlaggedForCause, Apply, Enabled;
      RunCause(Apply(s, events[0]), events[1..], kind);
    }
  }

  // In every run, a save can be started only when no save is at work, recovery is over and some object is
  // dirty, and then it can be.
  lemma SavesAreNeededIff(s: Store, events: seq<Event>)
    requires Initial(s) && IsRun(s, events)
    ensures var t := Run(s, events);
            Enabled(t, StartSave) <==> t.child.NoChild? && t.replayed == |t.journal| && exists o :: o in t.dirty
  {
    var t := Run(s, events);
    InitialInv(s);
    RunKept(s, events);
    forall kind ensures FlaggedForCause(t, kind) { RunCause(s, events, kind); }
    hide Run, IsRun, Initial;
    if o :| o in t.dirty { assert ObjInv(t, o); }
    if kind :| kind in t.dirtyKinds { assert FlaggedForCause(t, kind); }
  }
}
