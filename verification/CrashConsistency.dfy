/**
 Background saves against crashes.

 The daemon keeps every job, queue and resource in memory with a revision. An update may set the
 object's dirty bit and may be journaled. A save hands the dirty objects to a forked child, which
 writes their files one by one and then overwrites the first byte of the last record known at the
 time of the fork with '*'. What is on disk at any moment is what a crash at that moment leaves. A
 restart loads the files and replays the records behind the marker, before anything else happens.

 The state of an object is identified by its revision: `disk[o]` is the revision its file holds. A
 record carries the revision at which its effect is part of the object; a restart loads objects one
 revision up, so a replayed record is given the revision at which the replay applied it.
 */
module CrashConsistency {
  import opened Sequences

  datatype Kind = Resource | Queue | Job

  datatype Obj = Obj(kind: Kind, serial: nat)

  // `dirty` tells whether the object was left dirty by the update.
  datatype Record = Record(obj: Obj, revision: nat, dirty: bool)

  datatype Child =
    | NoChild
    | Saving(list: seq<Obj>, snapshot: map<Obj, nat>, commit: int, written: nat)
    | Ended(list: seq<Obj>, snapshot: map<Obj, nat>, ok: bool)

  datatype Store = Store(
    table: seq<Obj>, rev: map<Obj, nat>, dirty: set<Obj>, flushing: set<Obj>, dirtyKinds: set<Kind>,
    child: Child, journal: seq<Record>,
    disk: map<Obj, nat>, star: int,      // what a crash leaves besides the journal
    replayed: int,                       // the records that have been written or replayed by this process
    lastDirty: map<Obj, nat>)            // revision of the last update that left the object dirty

  datatype Event =
    | Create(obj: Obj)
    | Update(obj: Obj, dirtying: bool, journaled: bool)
    | MarkUnknown(obj: Obj)
    | Cleanup(obj: Obj)
    | StartSave
    | ChildWrite
    | ChildFail
    | ChildDone(marked: bool)
    | Reap
    | Restart(files: seq<Obj>)
    | Replay(applied: bool, dirtying: bool)

  // Recovery is over.
  predicate Recovered(s: Store) {
    s.replayed == |s.journal|
  }

  // A replayed record that is applied to a missing object is the one that created it, the first of all.
  predicate Enabled(s: Store, e: Event) {
    match e
    case Create(o) => Recovered(s) && o !in s.lastDirty
    case Update(o, _, _) => Recovered(s) && o in s.table && o in s.rev
    case MarkUnknown(o) => Recovered(s) && o in s.table && o in s.rev
    case Cleanup(o) => Recovered(s) && o in s.table && o !in s.dirty && o !in s.flushing
    case StartSave => Recovered(s) && s.child.NoChild? && s.dirtyKinds != {}
    case ChildWrite => s.child.Saving? && s.child.written < |s.child.list| && s.child.list[s.child.written] in s.child.snapshot
    case ChildFail => s.child.Saving?
    case ChildDone(_) => s.child.Saving? && s.child.written == |s.child.list|
    case Reap => s.child.Ended?
    case Restart(files) => (set o | o in files) == s.disk.Keys
    case Replay(applied, dirtying) =>
      && 0 <= s.replayed < |s.journal|
      && (applied && s.journal[s.replayed].obj !in s.rev ==>
            dirtying && forall k :: 0 <= k < s.replayed ==> s.journal[k].obj != s.journal[s.replayed].obj)
  }

  function Apply(s: Store, e: Event): Store
    requires Enabled(s, e)
  {
    match e
    case Create(o) =>
      Journaled(Bump(Added(s, o), o, true), o)
    case Update(o, dirtying, journaled) =>
      var s' := Bump(s, o, dirtying);
      if journaled then Journaled(s', o) else s'
    case MarkUnknown(o) =>
      Bump(s.(flushing := s.flushing - {o}), o, true)
    case Cleanup(o) =>
      s.(table := Without(s.table, o), rev := s.rev - {o}, disk := s.disk - {o})
    case StartSave =>
      var list := SaveList(s);
      s.(dirty := s.dirty - (set o | o in list), flushing := s.flushing + (set o | o in list), dirtyKinds := {},
         child := Saving(list, s.rev, |s.journal| - 1, 0))
    case ChildWrite =>
      var o := s.child.list[s.child.written];
      s.(disk := s.disk[o := s.child.snapshot[o]], child := s.child.(written := s.child.written + 1))
    case ChildFail =>
      s.(child := Ended(s.child.list, s.child.snapshot, false))
    case ChildDone(marked) =>
      s.(child := Ended(s.child.list, s.child.snapshot, true),
         star := if marked && s.child.commit > s.star then s.child.commit else s.star)
    case Reap =>
      var done := set o | o in s.child.list;
      if s.child.ok then s.(flushing := s.flushing - done, child := NoChild)
      else s.(flushing := s.flushing - done, dirty := s.dirty + done,
              dirtyKinds := s.dirtyKinds + (set o | o in s.child.list :: o.kind), child := NoChild)
    case Restart(files) =>
      Store(files, map o | o in s.disk :: s.disk[o] + 1, {}, {}, {}, NoChild, Unreplayed(s.journal, s.star), s.disk, s.star, s.star + 1,
            map o | o in s.lastDirty :: if o in s.disk then s.disk[o] else s.lastDirty[o])
    case Replay(applied, dirtying) =>
      if !applied then s.(replayed := s.replayed + 1)
      else
        var i, o := s.replayed, s.journal[s.replayed].obj;
        var s' := Bump(if o in s.rev then s else Added(s, o), o, dirtying);
        s'.(journal := s.journal[i := Record(o, s'.rev[o], o in s'.dirty)], replayed := i + 1)
  }

  function Added(s: Store, o: Obj): Store {
    s.(table := s.table + [o], rev := s.rev[o := 0])
  }

  // An update of an object that is dirty already leaves it dirty.
  function Bump(s: Store, o: Obj, dirtying: bool): Store
    requires o in s.rev
  {
    var s' := s.(rev := s.rev[o := s.rev[o] + 1], lastDirty := if dirtying || o in s.dirty then s.lastDirty[o := s.rev[o] + 1] else s.lastDirty);
    if dirtying then s'.(dirty := s.dirty + {o}, dirtyKinds := s.dirtyKinds + {o.kind}) else s'
  }

  function Journaled(s: Store, o: Obj): Store
    requires o in s.rev
  {
    s.(journal := s.journal + [Record(o, s.rev[o], o in s.dirty)], replayed := |s.journal| + 1)
  }

  // The records behind the marker count for nothing until they have been replayed.
  function Unreplayed(journal: seq<Record>, star: int): (r: seq<Record>)
    ensures |r| == |journal|
    ensures forall i :: 0 <= i < |journal| ==> r[i] == if i <= star then journal[i] else journal[i].(dirty := false)
  {
    seq(|journal|, i requires 0 <= i < |journal| => if i <= star then journal[i] else journal[i].(dirty := false))
  }

  function Selected(os: seq<Obj>, kind: Kind, dirty: set<Obj>): seq<Obj> {
    if os == [] then [] else (if os[0].kind == kind && os[0] in dirty then [os[0]] else []) + Selected(os[1..], kind, dirty)
  }

  // The objects of one kind that a save takes up: none unless the kind's own dirty flag is set.
  function SaveListOf(s: Store, kind: Kind): seq<Obj> {
    if kind in s.dirtyKinds then Selected(s.table, kind, s.dirty) else []
  }

  // Resources and queues are written before the jobs that refer to them.
  function SaveList(s: Store): seq<Obj> {
    SaveListOf(s, Resource) + SaveListOf(s, Queue) + SaveListOf(s, Job)
  }

  // -------------------------------------------------------------------------
  // Runs
  // -------------------------------------------------------------------------

  // Loaded for the first time, with an empty journal: loading an object raises its revision by one and
  // leaves it clean.
  predicate Initial(s: Store) {
    && s.dirty == {} && s.flushing == {} && s.dirtyKinds == {} && s.child == NoChild
    && s.journal == [] && s.star == -1 && s.replayed == 0
    && (forall o :: o in s.table ==> o in s.rev && o in s.disk && o in s.lastDirty && s.lastDirty[o] <= s.disk[o] && s.rev[o] == s.disk[o] + 1)
    && (forall o :: o in s.rev ==> o in s.table)
    && (forall o :: o in s.disk ==> o in s.table)
  }

  predicate IsRun(s: Store, events: seq<Event>)
    decreases events
  {
    events == [] || (Enabled(s, events[0]) && IsRun(Apply(s, events[0]), events[1..]))
  }

  function Run(s: Store, events: seq<Event>): Store
    requires IsRun(s, events)
    decreases events
  {
    if events == [] then s else Run(Apply(s, events[0]), events[1..])
  }

  // -------------------------------------------------------------------------
  // The invariant
  // -------------------------------------------------------------------------

  predicate OnDisk(s: Store, o: Obj, revision: nat) {
    o in s.disk && revision <= s.disk[o]
  }

  predicate InFlight(s: Store, o: Obj) {
    !s.child.NoChild? && o in s.child.list
  }

  // The child still holds that revision or a later one of the object.
  predicate Held(s: Store, o: Obj, revision: nat) {
    InFlight(s, o) && o in s.child.snapshot && revision <= s.child.snapshot[o]
  }

  predicate Shape(s: Store) {
    && -1 <= s.star < s.replayed <= |s.journal|
    && (!s.child.NoChild? ==> Recovered(s))
    && (s.child.Saving? ==> s.child.written <= |s.child.list| && s.child.commit < |s.journal|)
  }

  // Objects the child has written: their file holds the forked revision.
  predicate Written(s: Store, o: Obj)
    requires Shape(s)
  {
    || (s.child.Saving? && o in s.child.list[..s.child.written])
    || (s.child.Ended? && s.child.ok && o in s.child.list)
  }

  predicate ObjInv(s: Store, o: Obj)
    requires Shape(s)
  {
    && (o in s.table <==> o in s.rev)
    && (o in s.rev ==> o in s.lastDirty && s.lastDirty[o] <= s.rev[o])
    && (o in s.dirty ==> o in s.rev && o.kind in s.dirtyKinds)
    && (o in s.flushing ==> InFlight(s, o))
    && (o in s.disk ==> o in s.rev && s.disk[o] <= s.rev[o])
    && (InFlight(s, o) ==> o in s.rev && (o in s.flushing || o in s.dirty) && FlightInv(s, o))
       // neither dirty nor being flushed: on disk as of the last update that left it dirty
    && (o in s.rev && o !in s.dirty && !InFlight(s, o) ==> OnDisk(s, o, s.lastDirty[o]))
  }

  predicate FlightInv(s: Store, o: Obj)
    requires Shape(s) && InFlight(s, o) && o in s.rev && o in s.lastDirty
  {
    && o in s.child.snapshot && s.child.snapshot[o] <= s.rev[o]
    && (o in s.disk ==> s.disk[o] <= s.child.snapshot[o])
    && (o !in s.dirty ==> s.lastDirty[o] <= s.child.snapshot[o])
    && (Written(s, o) ==> o in s.disk && s.disk[o] == s.child.snapshot[o])
  }

  predicate RecordInv(s: Store, i: nat)
    requires i < |s.journal|
  {
    var r := s.journal[i];
    r.obj in s.lastDirty && (r.dirty ==> r.revision <= s.lastDirty[r.obj] && i < s.replayed)
  }

  // A record up to the marker that left its object dirty is on disk; one up to the position the child
  // will mark is on disk or still held by the child.
  predicate MarkerInv(s: Store, i: nat)
    requires i < |s.journal|
  {
    var r := s.journal[i];
    r.dirty && r.obj in s.rev ==>
      && (i <= s.star ==> OnDisk(s, r.obj, r.revision))
      && (s.child.Saving? && i <= s.child.commit ==> OnDisk(s, r.obj, r.revision) || Held(s, r.obj, r.revision))
  }

  ghost predicate Inv(s: Store) {
    && Shape(s)
    && (forall o :: ObjInv(s, o))
    && (forall i :: 0 <= i < |s.journal| ==> RecordInv(s, i) && MarkerInv(s, i))
  }

  // -------------------------------------------------------------------------
  // Preservation, for one object and for one record
  // -------------------------------------------------------------------------

  lemma {:induction false} SelectedMembers(os: seq<Obj>, kind: Kind, dirty: set<Obj>)
    ensures forall x :: x in Selected(os, kind, dirty) <==> x in os && x.kind == kind && x in dirty
  {
    if os != [] { SelectedMembers(os[1..], kind, dirty); }
  }

  // The three per-kind flags never hide a dirty object from a save.
  lemma SaveListMembers(s: Store, o: Obj)
    requires Shape(s) && ObjInv(s, o)
    ensures o in SaveList(s) <==> o in s.dirty
  {
    SelectedMembers(s.table, Resource, s.dirty);
    SelectedMembers(s.table, Queue, s.dirty);
    SelectedMembers(s.table, Job, s.dirty);
    if o in s.dirty { assert o in SaveListOf(s, o.kind); }
  }

  lemma UpdateObj(s: Store, e: Event, o: Obj)
    requires Shape(s) && ObjInv(s, o) && Enabled(s, e) && (e.Create? || e.Update? || e.MarkUnknown?)
    ensures Shape(Apply(s, e)) && ObjInv(Apply(s, e), o)
  {
    hide Apply, ObjInv;
    if e.obj != o { UpdateOther(s, e, o); }
    else if e.Create? { CreateSame(s, o); }
    else { UpdateSame(s, e); }
  }

  lemma CreateSame(s: Store, o: Obj)
    requires Shape(s) && ObjInv(s, o) && Enabled(s, Create(o))
    ensures Shape(Apply(s, Create(o))) && ObjInv(Apply(s, Create(o)), o)
  {
  }

  lemma UpdateSame(s: Store, e: Event)
    requires Enabled(s, e) && (e.Update? || e.MarkUnknown?) && Shape(s) && ObjInv(s, e.obj)
    ensures Shape(Apply(s, e)) && ObjInv(Apply(s, e), e.obj)
  {
  }

  // An update of another object.
  lemma UpdateOther(s: Store, e: Event, o: Obj)
    requires Shape(s) && ObjInv(s, o) && Enabled(s, e) && (e.Create? || e.Update? || e.MarkUnknown?) && e.obj != o
    ensures Shape(Apply(s, e)) && ObjInv(Apply(s, e), o)
  {
  }

  lemma SaveObj(s: Store, e: Event, o: Obj)
    requires Shape(s) && ObjInv(s, o) && Enabled(s, e) && (e.Cleanup? || e.StartSave?)
    ensures Shape(Apply(s, e)) && ObjInv(Apply(s, e), o)
  {
    if e.Cleanup? { WithoutMembers(s.table, e.obj); } else { SaveListMembers(s, o); }
  }

  lemma ChildEndObj(s: Store, e: Event, o: Obj)
    requires Shape(s) && ObjInv(s, o) && Enabled(s, e) && (e.ChildFail? || e.ChildDone? || e.Reap?)
    ensures Shape(Apply(s, e)) && ObjInv(Apply(s, e), o)
  {
    if e.ChildDone? { assert s.child.list[..s.child.written] == s.child.list; }
  }

  lemma ChildWriteObj(s: Store, o: Obj)
    requires Shape(s) && ObjInv(s, o) && Enabled(s, ChildWrite)
    ensures ObjInv(Apply(s, ChildWrite), o)
  {
    var c := s.child;
    assert c.list[..c.written + 1] == c.list[..c.written] + [c.list[c.written]];
    assert c.list[c.written] in c.list;
  }

  lemma RecoveryObj(s: Store, e: Event, o: Obj)
    requires Inv(s) && Enabled(s, e) && (e.Restart? || e.Replay?)
    ensures Shape(Apply(s, e)) && ObjInv(Apply(s, e), o)
  {
    assert ObjInv(s, o);
    if e.Replay? { assert RecordInv(s, s.replayed) && ObjInv(s, s.journal[s.replayed].obj); }
  }

  lemma RecoveryRecord(s: Store, e: Event, i: nat)
    requires Inv(s) && Enabled(s, e) && (e.Restart? || e.Replay?) && i < |s.journal|
    ensures i < |Apply(s, e).journal| && RecordInv(Apply(s, e), i) && MarkerInv(Apply(s, e), i)
  {
    assert RecordInv(s, i) && MarkerInv(s, i) && ObjInv(s, s.journal[i].obj);
    if e.Replay? { assert RecordInv(s, s.replayed) && ObjInv(s, s.journal[s.replayed].obj); }
  }

  lemma UpdateRecord(s: Store, e: Event, i: nat)
    requires Shape(s) && Enabled(s, e) && (e.Create? || e.Update? || e.MarkUnknown?) && i < |s.journal| && ObjInv(s, s.journal[i].obj)
    requires RecordInv(s, i) && MarkerInv(s, i)
    ensures RecordInv(Apply(s, e), i) && MarkerInv(Apply(s, e), i)
  {
  }

  lemma RecordKept(s: Store, e: Event, i: nat)
    requires Shape(s) && Enabled(s, e) && !e.Restart? && !e.Replay? && i < |s.journal| && ObjInv(s, s.journal[i].obj)
    requires RecordInv(s, i) && MarkerInv(s, i)
    ensures RecordInv(Apply(s, e), i) && MarkerInv(Apply(s, e), i)
  {
    if e.Create? || e.Update? || e.MarkUnknown? {
      hide Apply, RecordInv, MarkerInv;
      UpdateRecord(s, e, i);
    } else {
      match e
      case StartSave => SaveListMembers(s, s.journal[i].obj);
      case ChildWrite => ChildWriteObj(s, s.journal[i].obj);
      case ChildDone(_) => assert s.child.list[..s.child.written] == s.child.list;
      case _ =>
    }
  }

  lemma ObjKept(s: Store, e: Event, o: Obj)
    requires Shape(s) && ObjInv(s, o) && Enabled(s, e) && !e.Restart? && !e.Replay?
    ensures Shape(Apply(s, e)) && ObjInv(Apply(s, e), o)
  {
    if e.Create? || e.Update? || e.MarkUnknown? { UpdateObj(s, e, o); }
    else if e.Cleanup? || e.StartSave? { SaveObj(s, e, o); }
    else if e.ChildWrite? { ChildWriteObj(s, o); }
    else { ChildEndObj(s, e, o); }
  }

  lemma NewRecord(s: Store, e: Event, i: nat)
    requires Shape(s) && Enabled(s, e) && |s.journal| <= i < |Apply(s, e).journal| && (e.Create? || e.Update?)
    requires ObjInv(s, e.obj)
    ensures RecordInv(Apply(s, e), i) && MarkerInv(Apply(s, e), i)
  {
  }

  lemma StepKept(s: Store, e: Event)
    requires Inv(s) && Enabled(s, e)
    ensures Inv(Apply(s, e))
  {
    var t := Apply(s, e);
    if e.Restart? || e.Replay? {
      RecoveryObj(s, e, Obj(Job, 0));
      forall o ensures ObjInv(t, o) { RecoveryObj(s, e, o); }
      forall i | 0 <= i < |t.journal| ensures RecordInv(t, i) && MarkerInv(t, i) { RecoveryRecord(s, e, i); }
    } else {
      ObjKept(s, e, Obj(Job, 0));
      forall o ensures ObjInv(t, o) { ObjKept(s, e, o); }
      forall i | 0 <= i < |t.journal| ensures RecordInv(t, i) && MarkerInv(t, i) {
        if i < |s.journal| { RecordKept(s, e, i); } else { NewRecord(s, e, i); }
      }
    }
  }

  lemma {:induction false} RunKept(s: Store, events: seq<Event>)
    requires Inv(s) && IsRun(s, events)
    ensures Inv(Run(s, events))
    decreases events
  {
    if events != [] {
      StepKept(s, events[0]);
      RunKept(Apply(s, events[0]), events[1..]);
    }
  }

  // -------------------------------------------------------------------------
  // What holds in every run, so at every crash
  // -------------------------------------------------------------------------

  // Over any number of crashes and restarts.
  lemma CrashConsistent(s: Store, events: seq<Event>)
    requires Initial(s) && IsRun(s, events)
    ensures var t := Run(s, events);
            // a clean object's file is at least as new as the last update that left it dirty
            && (forall o :: o in t.rev && o !in t.dirty && o !in t.flushing ==> o in t.lastDirty && OnDisk(t, o, t.lastDirty[o]))
            // every update journaled at or before the marker that left its object dirty is on disk
            && t.star < |t.journal|
            && (forall i :: 0 <= i <= t.star && t.journal[i].dirty && t.journal[i].obj in t.rev ==>
                  OnDisk(t, t.journal[i].obj, t.journal[i].revision))
            // no object handed to a save leaves the table before the save is over
            && (forall o :: InFlight(t, o) ==> o in t.table)
            // a file never holds a revision its object has not reached
            && (forall o :: o in t.disk ==> o in t.rev && t.disk[o] <= t.rev[o])
  {
    InitialInv(s);
    RunKept(s, events);
    var t := Run(s, events);
    forall o | o in t.rev && o !in t.dirty && o !in t.flushing ensures o in t.lastDirty && OnDisk(t, o, t.lastDirty[o]) {
      assert ObjInv(t, o);
    }
    forall i | 0 <= i <= t.star && t.journal[i].dirty && t.journal[i].obj in t.rev
      ensures OnDisk(t, t.journal[i].obj, t.journal[i].revision)
    {
      assert MarkerInv(t, i);
    }
    forall o | InFlight(t, o) ensures o in t.table { assert ObjInv(t, o); }
    forall o | o in t.disk ensures o in t.rev && t.disk[o] <= t.rev[o] { assert ObjInv(t, o); }
  }

  lemma InitialInv(s: Store)
    requires Initial(s)
    ensures Inv(s)
  {
    forall o ensures ObjInv(s, o) { }
  }
}
