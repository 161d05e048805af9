/**
 Journaled updates that a save leaves behind.

 Deleting a job is journaled but sets no dirty bit, and neither does a modification of nothing but tags
 or environment. A save of another object moves the marker past such a record.
 */
module CrashLoss {
  import opened CrashConsistency

  // The step sets the object's dirty bit.
  predicate Dirties(s: Store, e: Event, o: Obj)
    requires Enabled(s, e)
  {
    match e
    case Create(p) => p == o
    case Update(p, dirtying, _) => p == o && dirtying
    case MarkUnknown(p) => p == o
    case Reap => !s.child.ok && o in s.child.list
    case Replay(applied, dirtying) => applied && dirtying && s.journal[s.replayed].obj == o
    case _ => false
  }

  predicate NotDirtied(s: Store, events: seq<Event>, o: Obj)
    requires IsRun(s, events)
    decreases events
  {
    events == [] || (!Dirties(s, events[0], o) && NotDirtied(Apply(s, events[0]), events[1..], o))
  }

  // Nobody has that revision of the object or will write it.
  predicate Stale(s: Store, o: Obj, revision: nat) {
    o !in s.dirty && !OnDisk(s, o, revision) && !Held(s, o, revision)
  }

  lemma StaleKept(s: Store, e: Event, o: Obj, revision: nat)
    requires Inv(s) && Enabled(s, e) && Stale(s, o, revision) && !Dirties(s, e, o)
    ensures Stale(Apply(s, e), o, revision)
  {
    assert ObjInv(s, o);
    if e.StartSave? { SaveListMembers(s, o); }
    if e.ChildWrite? { assert s.child.list[s.child.written] in s.child.list; }
  }

  lemma {:induction false} RunStale(s: Store, events: seq<Event>, o: Obj, revision: nat)
    requires Inv(s) && IsRun(s, events) && NotDirtied(s, events, o) && Stale(s, o, revision)
    ensures Stale(Run(s, events), o, revision)
    decreases events
  {
    if events != [] {
      StaleKept(s, events[0], o, revision);
      StepKept(s, events[0]);
      hide Inv, Stale, Apply, Dirties;
      RunStale(Apply(s, events[0]), events[1..], o, revision);
    }
  }

  // An update that leaves its object clean is in no file and in no hand, wherever the marker has moved,
  // until a later update sets the dirty bit. Crashes and restarts make no difference.
  lemma CleanUpdateIsLost(s: Store, o: Obj, events: seq<Event>)
    requires Inv(s) && Enabled(s, Update(o, false, true)) && o !in s.dirty
    requires IsRun(Apply(s, Update(o, false, true)), events) && NotDirtied(Apply(s, Update(o, false, true)), events, o)
    ensures Stale(Run(Apply(s, Update(o, false, true)), events), o, s.rev[o] + 1)
  {
    var s1 := Apply(s, Update(o, false, true));
    assert ObjInv(s, o);
    StepKept(s, Update(o, false, true));
    RunStale(s1, events, o, s.rev[o] + 1);
  }

  predicate NoRestart(events: seq<Event>) {
    forall i :: 0 <= i < |events| ==> !events[i].Restart? && !events[i].Replay?
  }

  lemma {:induction false} JournalGrows(s: Store, events: seq<Event>)
    requires IsRun(s, events) && NoRestart(events)
    ensures s.journal <= Run(s, events).journal
    decreases events
  {
    if events != [] {
      assert s.journal <= Apply(s, events[0]).journal;
      hide Apply, Enabled;
      JournalGrows(Apply(s, events[0]), events[1..]);
    }
  }

  // A journaled update whose object is not dirtied again and still exists when a save has moved the
  // marker past the record is on disk if and only if it left the object dirty.
  lemma UpdateSurvivesIff(s: Store, o: Obj, dirtying: bool, events: seq<Event>)
    requires Inv(s) && Enabled(s, Update(o, dirtying, true))
    requires var s1 := Apply(s, Update(o, dirtying, true));
             IsRun(s1, events) && NoRestart(events) && NotDirtied(s1, events, o) && Run(s1, events).star >= |s.journal| && o in Run(s1, events).rev
    ensures OnDisk(Run(Apply(s, Update(o, dirtying, true)), events), o, s.rev[o] + 1) <==> dirtying || o in s.dirty
  {
    var s1 := Apply(s, Update(o, dirtying, true));
    var t, i := Run(s1, events), |s.journal|;
    if dirtying || o in s.dirty {
      assert s1.journal[i] == Record(o, s.rev[o] + 1, true);
      StepKept(s, Update(o, dirtying, true));
      hide Apply, Enabled;
      JournalGrows(s1, events);
      RunKept(s1, events);
      assert t.journal[i] == s1.journal[i] && MarkerInv(t, i);
    } else {
      CleanUpdateIsLost(s, o, events);
    }
  }

  // -------------------------------------------------------------------------
  // It does happen
  // -------------------------------------------------------------------------

  lemma Chain(s: Store, e: Event, t: Store, rest: seq<Event>)
    requires Enabled(s, e) && t == Apply(s, e) && IsRun(t, rest)
    ensures IsRun(s, [e] + rest) && Run(s, [e] + rest) == Run(t, rest)
  {
    assert ([e] + rest)[1..] == rest;
  }

  // Two jobs, the first of them loaded at start.
  const A := Obj(Job, 0)
  const B := Obj(Job, 1)

  function Loaded(): Store {
    Store([A], map[A := 2], {}, {}, {}, NoChild, [], map[A := 1], -1, 0, map[A := 1])
  }

  function Updated(): Store {
    Store([A, B], map[A := 3, B := 1], {B}, {}, {Job}, NoChild, [Record(A, 3, false), Record(B, 1, true)],
          map[A := 1], -1, 2, map[A := 1, B := 1])
  }

  function Forked(): Store {
    Updated().(dirty := {}, flushing := {B}, dirtyKinds := {}, child := Saving([B], map[A := 3, B := 1], 1, 0))
  }

  function Saved(): Store {
    Forked().(disk := map[A := 1, B := 1], child := Ended([B], map[A := 3, B := 1], true), star := 1)
  }

  lemma LoadedToUpdated(rest: seq<Event>)
    requires IsRun(Updated(), rest)
    ensures var events := [Update(A, false, true)] + ([Create(B)] + rest);
            IsRun(Loaded(), events) && Run(Loaded(), events) == Run(Updated(), rest)
  {
    var s1 := Loaded().(rev := map[A := 3], journal := [Record(A, 3, false)], replayed := 1);
    assert Apply(s1, Create(B)) == Updated();
    Chain(s1, Create(B), Updated(), rest);
    Chain(Loaded(), Update(A, false, true), s1, [Create(B)] + rest);
  }

  lemma UpdatedToForked()
    ensures Enabled(Updated(), StartSave) && Apply(Updated(), StartSave) == Forked()
  {
    var u := Updated();
    assert u.table[1..] == [B] && u.table[1..][1..] == [];
    assert Selected([B], Job, u.dirty) == [B];
    assert Selected(u.table, Job, u.dirty) == [B];
    assert SaveList(u) == [B];
    assert (set o | o in [B]) == {B};
  }

  lemma ForkedToSaved()
    ensures IsRun(Forked(), [ChildWrite, ChildDone(true)]) && Run(Forked(), [ChildWrite, ChildDone(true)]) == Saved()
  {
    var s1 := Forked().(disk := map[A := 1, B := 1], child := Forked().child.(written := 1));
    Chain(s1, ChildDone(true), Saved(), []);
    Chain(Forked(), ChildWrite, s1, [ChildDone(true)]);
  }

  // A save of another object moves the marker past the record of a clean update, whose effect exists
  // nowhere on disk.
  lemma NonDirtyingRecordCanBeLost() returns (events: seq<Event>)
    ensures Initial(Loaded()) && IsRun(Loaded(), events)
    ensures var t := Run(Loaded(), events);
            0 <= t.star < |t.journal| && t.journal[0] == Record(A, 3, false) && A in t.rev
            && A !in t.dirty && A !in t.flushing && !OnDisk(t, A, 3)
  {
    var last := [ChildWrite, ChildDone(true)];
    UpdatedToForked();
    ForkedToSaved();
    Chain(Updated(), StartSave, Forked(), last);
    LoadedToUpdated([StartSave] + last);
    events := [Update(A, false, true)] + ([Create(B)] + ([StartSave] + last));
  }
}
