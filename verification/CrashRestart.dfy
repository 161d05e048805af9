/**
 What a restart does before anything else: the records behind the marker are replayed, each once and in
 order, and what the replay makes dirty is not lost again.
 */
module CrashRestart {
  import opened CrashConsistency

  predicate NoRestart(events: seq<Event>) {
    forall i :: 0 <= i < |events| ==> !events[i].Restart?
  }

  // -------------------------------------------------------------------------
  // Runs and their prefixes
  // -------------------------------------------------------------------------

  lemma {:induction false} PrefixRun(s: Store, events: seq<Event>, k: nat)
    requires IsRun(s, events) && k <= |events|
    ensures IsRun(s, events[..k]) && IsRun(Run(s, events[..k]), events[k..])
    ensures Run(Run(s, events[..k]), events[k..]) == Run(s, events)
    decreases k
  {
    hide Apply, Enabled;
    if k == 0 {
      assert events[..0] == [] && events[0..] == events;
    } else {
      var e, rest := events[0], events[1..];
      PrefixRun(Apply(s, e), rest, k - 1);
      PrefixParts(events, k);
      Unfold(s, e, rest[..k - 1]);
    }
  }

  lemma PrefixParts(events: seq<Event>, k: nat)
    requires 0 < k <= |events|
    ensures events[..k] == [events[0]] + events[1..][..k - 1] && events[1..][k - 1..] == events[k..]
  {
  }

  lemma Unfold(s: Store, e: Event, rest: seq<Event>)
    requires Enabled(s, e) && IsRun(Apply(s, e), rest)
    ensures IsRun(s, [e] + rest) && Run(s, [e] + rest) == Run(Apply(s, e), rest)
  {
    hide Apply, Enabled;
    assert ([e] + rest)[1..] == rest;
  }

  lemma NextState(s: Store, events: seq<Event>, k: nat)
    requires IsRun(s, events) && k < |events|
    ensures IsRun(s, events[..k]) && IsRun(s, events[..k + 1])
    ensures var v := Run(s, events[..k]); Enabled(v, events[k]) && Run(s, events[..k + 1]) == Apply(v, events[k])
  {
    PrefixRun(s, events, k);
    PrefixRun(s, events, k + 1);
    PrefixRun(s, events[..k + 1], k);
    hide Apply, Enabled;
    assert events[..k + 1][..k] == events[..k] && events[..k + 1][k..] == [events[k]] && [events[k]][1..] == [];
    assert events[k..][0] == events[k];
  }

  // -------------------------------------------------------------------------
  // Replays come first
  // -------------------------------------------------------------------------

  // Once everything is replayed nothing else is, short of another restart.
  lemma {:induction false} NoMoreReplays(s: Store, events: seq<Event>)
    requires Recovered(s) && IsRun(s, events) && NoRestart(events)
    ensures Recovered(Run(s, events)) && forall i :: 0 <= i < |events| ==> !events[i].Replay?
    decreases events
  {
    if events != [] {
      assert Recovered(Apply(s, events[0]));
      hide Apply;
      NoMoreReplays(Apply(s, events[0]), events[1..]);
      assert forall i :: 0 < i < |events| ==> events[i] == events[1..][i - 1];
    }
  }

  lemma OnlyReplay(s: Store, e: Event)
    requires !Recovered(s) && s.child.NoChild? && Enabled(s, e) && !e.Restart?
    ensures e.Replay?
    ensures var t := Apply(s, e); t.child.NoChild? && t.replayed == s.replayed + 1 && |t.journal| == |s.journal|
  {
  }

  lemma {:induction false} ReplaysFirst(s: Store, events: seq<Event>)
    requires 0 <= s.replayed <= |s.journal| && s.child.NoChild? && IsRun(s, events) && NoRestart(events)
    ensures var n := |s.journal| - s.replayed;
            && (forall i :: 0 <= i < |events| ==> (events[i].Replay? <==> i < n))
            && (Recovered(Run(s, events)) <==> n <= |events|)
    decreases events
  {
    if Recovered(s) {
      NoMoreReplays(s, events);
    } else if events != [] {
      OnlyReplay(s, events[0]);
      hide Apply, Enabled;
      ReplaysFirst(Apply(s, events[0]), events[1..]);
      assert forall i :: 0 < i < |events| ==> events[i] == events[1..][i - 1];
    }
  }

  // Whatever follows a restart, it is the replay of as many records as stand behind the marker, and then
  // no other. Only then is recovery over, and only then can anything be created, updated or saved.
  lemma RestartReplaysAll(s: Store, files: seq<Obj>, events: seq<Event>)
    requires Inv(s) && Enabled(s, Restart(files))
    requires IsRun(Apply(s, Restart(files)), events) && NoRestart(events)
    ensures var n := |s.journal| - 1 - s.star;
            && (forall i :: 0 <= i < |events| ==> (events[i].Replay? <==> i < n))
            && (Recovered(Run(Apply(s, Restart(files)), events)) <==> n <= |events|)
  {
    ReplaysFirst(Apply(s, Restart(files)), events);
  }

  // -------------------------------------------------------------------------
  // One record after the other
  // -------------------------------------------------------------------------

  lemma {:induction false} ReplayedUpTo(s: Store, events: seq<Event>)
    requires 0 <= s.replayed <= |s.journal| && s.child.NoChild? && IsRun(s, events) && NoRestart(events)
    requires |events| <= |s.journal| - s.replayed
    ensures var v := Run(s, events);
            && v.replayed == s.replayed + |events| && v.child.NoChild? && |v.journal| == |s.journal|
            && forall i :: 0 <= i < |s.journal| ==> v.journal[i].obj == s.journal[i].obj
    decreases events
  {
    if events != [] {
      OnlyReplay(s, events[0]);
      assert forall i :: 0 <= i < |s.journal| ==> Apply(s, events[0]).journal[i].obj == s.journal[i].obj;
      hide Apply, Enabled;
      ReplayedUpTo(Apply(s, events[0]), events[1..]);
    }
  }

  // A restart loads every file one revision up, and the k-th replay behind it works on the k-th record
  // behind the marker: applied, it raises the revision of that record's object by one, creating the object
  // if need be, and changes no other object; skipped, it changes none.
  lemma ReplayIsInOrder(s: Store, files: seq<Obj>, events: seq<Event>, k: nat)
    requires Inv(s) && Enabled(s, Restart(files)) && k < |s.journal| - 1 - s.star && k < |events|
    requires IsRun(Apply(s, Restart(files)), events) && NoRestart(events)
    ensures var t := Apply(s, Restart(files));
            && t.disk == s.disk && t.rev.Keys == s.disk.Keys && (forall o :: o in s.disk ==> t.rev[o] == s.disk[o] + 1)
            && IsRun(t, events[..k]) && IsRun(t, events[..k + 1]) && events[k].Replay?
            && var v, w, o := Run(t, events[..k]), Run(t, events[..k + 1]), s.journal[s.star + 1 + k].obj;
               && w.rev == (if events[k].applied then v.rev[o := if o in v.rev then v.rev[o] + 1 else 1] else v.rev)
               && w.dirty == (if events[k].applied && events[k].dirtying then v.dirty + {o} else v.dirty)
               && w.disk == v.disk && w.star == v.star
  {
    hide Apply, Enabled, Run, IsRun, Inv, NoRestart;
    var t := Apply(s, Restart(files));
    Reloaded(s, files);
    ReplayPoint(s, files, events, k);
    OneReplay(Run(t, events[..k]), events[k]);
  }

  // Where the k-th replay stands.
  lemma ReplayPoint(s: Store, files: seq<Obj>, events: seq<Event>, k: nat)
    requires Inv(s) && Enabled(s, Restart(files)) && k < |s.journal| - 1 - s.star && k < |events|
    requires IsRun(Apply(s, Restart(files)), events) && NoRestart(events)
    ensures -1 <= s.star
    ensures var t := Apply(s, Restart(files));
            && IsRun(t, events[..k]) && IsRun(t, events[..k + 1]) && events[k].Replay?
            && var v := Run(t, events[..k]);
               && Enabled(v, events[k]) && Run(t, events[..k + 1]) == Apply(v, events[k])
               && v.replayed == s.star + 1 + k < |v.journal| && v.journal[v.replayed].obj == s.journal[s.star + 1 + k].obj
  {
    hide Apply, Enabled, Run, IsRun, Inv;
    var t := Apply(s, Restart(files));
    ShapeOf(s);
    Reloaded(s, files);
    RestartReplaysAll(s, files, events);
    NextState(t, events, k);
    ReplayedUpTo(t, events[..k]);
  }

  lemma ShapeOf(s: Store)
    requires Inv(s)
    ensures Shape(s)
  {
  }

  lemma Reloaded(s: Store, files: seq<Obj>)
    requires Enabled(s, Restart(files))
    ensures var t := Apply(s, Restart(files));
            && t.disk == s.disk && t.rev.Keys == s.disk.Keys && (forall o :: o in s.disk ==> t.rev[o] == s.disk[o] + 1)
            && t.replayed == s.star + 1 && t.child.NoChild? && |t.journal| == |s.journal|
            && forall i :: 0 <= i < |s.journal| ==> t.journal[i].obj == s.journal[i].obj
  {
  }

  lemma OneReplay(v: Store, e: Event)
    requires Enabled(v, e) && e.Replay?
    ensures var w, o := Apply(v, e), v.journal[v.replayed].obj;
            && w.rev == (if e.applied then v.rev[o := if o in v.rev then v.rev[o] + 1 else 1] else v.rev)
            && w.dirty == (if e.applied && e.dirtying then v.dirty + {o} else v.dirty)
            && w.disk == v.disk && w.star == v.star
  {
  }

  // -------------------------------------------------------------------------
  // What a replay makes dirty is saved sooner or later
  // -------------------------------------------------------------------------

  // The object is in the table or recovery is over, and its last dirtying revision is at least that.
  predicate Marked(s: Store, o: Obj, revision: nat) {
    o in s.lastDirty && s.lastDirty[o] >= revision && (o in s.rev || Recovered(s))
  }

  lemma MarkedKept(s: Store, e: Event, o: Obj, revision: nat)
    requires Inv(s) && Enabled(s, e) && !e.Restart? && Marked(s, o, revision)
    ensures Marked(Apply(s, e), o, revision)
  {
    assert ObjInv(s, o);
  }

  lemma {:induction false} RunMarked(s: Store, events: seq<Event>, o: Obj, revision: nat)
    requires Inv(s) && IsRun(s, events) && NoRestart(events) && Marked(s, o, revision)
    ensures Inv(Run(s, events)) && Marked(Run(s, events), o, revision)
    decreases events
  {
    if events != [] {
      MarkedKept(s, events[0], o, revision);
      StepKept(s, events[0]);
      hide Inv, Marked, Apply, Enabled;
      RunMarked(Apply(s, events[0]), events[1..], o, revision);
    }
  }

  // A record that was replayed dirtying stays safe: as long as its object exists, it is dirty, in the
  // hands of a save, or on disk at the revision the replay gave it or a later one.
  lemma ReplayedIsSafe(s: Store, files: seq<Obj>, events: seq<Event>, k: nat)
    requires Inv(s) && Enabled(s, Restart(files)) && k < |s.journal| - 1 - s.star && k < |events|
    requires IsRun(Apply(s, Restart(files)), events) && NoRestart(events)
    requires events[k].Replay? && events[k].applied && events[k].dirtying
    ensures var t, o := Apply(s, Restart(files)), s.journal[s.star + 1 + k].obj;
            && IsRun(t, events[..k + 1]) && o in Run(t, events[..k + 1]).rev
            && var u := Run(t, events);
               o in u.rev ==> o in u.dirty || InFlight(u, o) || OnDisk(u, o, Run(t, events[..k + 1]).rev[o])
  {
    hide Apply, Enabled, Run, IsRun, Inv;
    ReplayPoint(s, files, events, k);
    var t, o := Apply(s, Restart(files)), s.journal[s.star + 1 + k].obj;
    PrefixRun(t, events, k + 1);
    StepKept(s, Restart(files));
    RunKept(t, events[..k + 1]);
    var v, w := Run(t, events[..k]), Run(t, events[..k + 1]);
    ReplayMarks(v, events[k]);
    RunMarked(w, events[k + 1..], o, w.rev[o]);
    if o in Run(t, events).rev { SafeWhenMarked(Run(t, events), o, w.rev[o]); }
  }

  lemma SafeWhenMarked(u: Store, o: Obj, revision: nat)
    requires Inv(u) && Marked(u, o, revision) && o in u.rev
    ensures o in u.dirty || InFlight(u, o) || OnDisk(u, o, revision)
  {
    assert ObjInv(u, o);
  }

  lemma ReplayMarks(v: Store, e: Event)
    requires Enabled(v, e) && e.Replay? && e.applied && e.dirtying
    ensures var w, o := Apply(v, e), v.journal[v.replayed].obj; o in w.rev && Marked(w, o, w.rev[o])
  {
  }
}
