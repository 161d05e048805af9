/**
 The daemon side of a background save, as it changes the tables in place: updateObject, the
 collection of dirty objects before the fork, and the bookkeeping when the child has ended.
 */
module StateSaver {
  import opened Sequences
  import opened CrashConsistency

  function Elements(os: seq<Obj>): set<Obj> {
    set o | o in os
  }

  lemma {:induction false} SelectedAppend(os: seq<Obj>, o: Obj, kind: Kind, dirty: set<Obj>)
    ensures Selected(os + [o], kind, dirty)
            == Selected(os, kind, dirty) + (if o.kind == kind && o in dirty then [o] else [])
  {
    if os == [] {
      assert os + [o] == [o];
    } else {
      assert (os + [o])[1..] == os[1..] + [o];
      SelectedAppend(os[1..], o, kind, dirty);
    }
  }

  class Saver {
    var table: seq<Obj>
    var rev: map<Obj, nat>
    var dirty: set<Obj>
    var flushing: set<Obj>
    var dirtyKinds: set<Kind>
    var child: Child
    var journal: seq<Record>
    ghost var disk: map<Obj, nat>
    ghost var star: int
    ghost var replayed: int
    ghost var lastDirty: map<Obj, nat>

    ghost function View(): Store
      reads this
    {
      Store(table, rev, dirty, flushing, dirtyKinds, child, journal, disk, star, replayed, lastDirty)
    }

    method UpdateObject(o: Obj, dirtying: bool)
      requires o in rev
      modifies this
      ensures View() == Bump(old(View()), o, dirtying)
    {
      rev := rev[o := rev[o] + 1];
      if dirtying {
        dirty := dirty + {o};
        dirtyKinds := dirtyKinds + {o.kind};
      }
      if o in dirty {
        lastDirty := lastDirty[o := rev[o]];
      }
    }

    // One of the three collection loops: take the dirty objects of a kind, clearing their bits.
    method Collect(kind: Kind) returns (list: seq<Obj>)
      requires Distinct(table)
      modifies this`dirty, this`flushing
      ensures list == Selected(table, kind, old(dirty))
      ensures dirty == old(dirty) - Elements(list)
      ensures flushing == old(flushing) + Elements(list)
    {
      list := [];
      var i := 0;
      while i < |table|
        invariant 0 <= i <= |table|
        invariant list == Selected(table[..i], kind, old(dirty))
        invariant dirty == old(dirty) - Elements(list)
        invariant flushing == old(flushing) + Elements(list)
        invariant forall o :: o in list ==> o in table[..i]
      {
        assert table[..i + 1] == table[..i] + [table[i]];
        SelectedAppend(table[..i], table[i], kind, old(dirty));
        assert table[i] !in table[..i];
        if table[i].kind == kind && table[i] in dirty {
          list := list + [table[i]];
          dirty := dirty - {table[i]};
          flushing := flushing + {table[i]};
        }
        i := i + 1;
      }
      assert table[..i] == table;
    }

    method CollectIfFlagged(kind: Kind) returns (list: seq<Obj>)
      requires Distinct(table)
      modifies this`dirty, this`flushing
      ensures list == SaveListOf(old(View()), kind)
      ensures dirty == old(dirty) - Elements(list) && flushing == old(flushing) + Elements(list)
      ensures forall o :: o in list ==> o.kind == kind
    {
      if kind in dirtyKinds {
        list := Collect(kind);
        SelectedMembers(table, kind, old(dirty));
      } else {
        list := [];
      }
    }

    method CollectAll() returns (list: seq<Obj>)
      requires Distinct(table)
      modifies this`dirty, this`flushing
      ensures list == SaveList(old(View()))
      ensures dirty == old(dirty) - Elements(list) && flushing == old(flushing) + Elements(list)
    {
      var jobs := CollectIfFlagged(Job);
      SelectedSame(old(View()), View(), Queue);
      var queues := CollectIfFlagged(Queue);
      SelectedSame(old(View()), View(), Resource);
      var resources := CollectIfFlagged(Resource);
      list := resources + queues + jobs;
      assert Elements(list) == Elements(resources) + Elements(queues) + Elements(jobs);
    }

    method StartSave()
      requires Distinct(table) && Enabled(View(), CrashConsistency.StartSave)
      modifies this
      ensures View() == Apply(old(View()), CrashConsistency.StartSave)
    {
      var list := CollectAll();
      dirtyKinds := {};
      child := Saving(list, rev, |journal| - 1, 0);
    }

    method ClearFlushing(list: seq<Obj>)
      modifies this`flushing
      ensures flushing == old(flushing) - Elements(list)
    {
      var i := 0;
      while i < |list|
        invariant 0 <= i <= |list|
        invariant flushing == old(flushing) - Elements(list[..i])
      {
        assert list[..i + 1] == list[..i] + [list[i]];
        flushing := flushing - {list[i]};
        i := i + 1;
      }
      assert list[..i] == list;
    }

    method SetDirtyAgain(list: seq<Obj>)
      modifies this`dirty, this`dirtyKinds
      ensures dirty == old(dirty) + Elements(list)
      ensures dirtyKinds == old(dirtyKinds) + set o | o in list :: o.kind
    {
      var i := 0;
      while i < |list|
        invariant 0 <= i <= |list|
        invariant dirty == old(dirty) + Elements(list[..i])
        invariant dirtyKinds == old(dirtyKinds) + set o | o in list[..i] :: o.kind
      {
        assert list[..i + 1] == list[..i] + [list[i]];
        dirty := dirty + {list[i]};
        dirtyKinds := dirtyKinds + {list[i].kind};
        i := i + 1;
      }
      assert list[..i] == list;
    }

    // The child has ended: the objects are no longer being flushed, and dirty again if it failed.
    method Reap()
      requires Enabled(View(), CrashConsistency.Reap)
      modifies this
      ensures View() == Apply(old(View()), CrashConsistency.Reap)
    {
      ClearFlushing(child.list);
      if !child.ok {
        SetDirtyAgain(child.list);
      }
      child := NoChild;
    }
  }

  lemma SelectedSame(s: Store, t: Store, kind: Kind)
    requires s.table == t.table && s.dirtyKinds == t.dirtyKinds
    requires forall o :: o in s.table && o.kind == kind ==> (o in s.dirty <==> o in t.dirty)
    ensures SaveListOf(s, kind) == SaveListOf(t, kind)
  {
    SelectedSameList(s.table, kind, s.dirty, t.dirty);
  }

  lemma {:induction false} SelectedSameList(os: seq<Obj>, kind: Kind, d: set<Obj>, d': set<Obj>)
    requires forall o :: o in os && o.kind == kind ==> (o in d <==> o in d')
    ensures Selected(os, kind, d) == Selected(os, kind, d')
  {
    if os != [] {
      assert os[0] in os;
      assert forall o :: o in os[1..] ==> o in os;
      SelectedSameList(os[1..], kind, d, d');
    }
  }
}
