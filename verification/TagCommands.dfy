/**
 The tag commands as loops over a job's tags and over the job table, each proved to do what the step
 on values does.
 */
module TagCommands {
  import opened Options
  import opened Sequences
  import opened SchedState
  import opened TagIndex

  class TagStore {
    const ix: string
    var store: Store

    constructor (ix: string)
      ensures this.ix == ix && store == EMPTY && Inv(store, ix)
    {
      this.ix := ix;
      store := EMPTY;
    }

    method AddIndexTag(id: JobId, v: string)
      requires id in store.jobs
      modifies this
      ensures store == AddIndex(old(store), id, v)
    {
      if v !in store.table {
        store := store.(table := store.table[v := []]);
      }
      store := store.(table := store.table[v := store.table[v] + [id]]);
      store := store.(jobs := store.jobs[id := store.jobs[id].(entry := Some(v))]);
      assert store.table == old(store).table[v := EntryOf(old(store).table, v) + [id]];
    }

    method DelIndexTag(id: JobId)
      requires id in store.jobs
      modifies this
      ensures store == DelIndex(old(store), id)
    {
      if store.jobs[id].entry.None? {
        return;
      }
      var v := store.jobs[id].entry.value;
      store := store.(table := store.table[v := Without(EntryOf(store.table, v), id)]);
      store := store.(jobs := store.jobs[id := store.jobs[id].(entry := None)]);
    }

    // Set a tag: the first with that key gets the value, or a new one is added at the end.
    method CommandSetTag(id: JobId, key: string, value: string) returns (found: bool)
      modifies this
      ensures store == SetTag(old(store), ix, id, key, value) && found == (id in old(store).jobs)
    {
      if id !in store.jobs {
        return false;
      }
      var tags := store.jobs[id].tags;
      var i := 0;
      while i < |tags|
        invariant 0 <= i <= Find(tags, key) && store == old(store)
      {
        if tags[i].key == key {
          break;
        }
        i := i + 1;
      }
      assert i == Find(tags, key);
      if i < |tags| {
        if key == ix {
          DelIndexTag(id);
        }
        store := store.(jobs := store.jobs[id := store.jobs[id].(tags := tags[i := Tag(key, value)])]);
      } else {
        store := store.(jobs := store.jobs[id := store.jobs[id].(tags := tags + [Tag(key, value)])]);
      }
      if key == ix {
        AddIndexTag(id, value);
      }
      found := true;
    }

    method CommandDelTag(id: JobId, key: string) returns (found: bool)
      modifies this
      ensures store == DelTag(old(store), ix, id, key)
      ensures found == (id in old(store).jobs && exists k :: 0 <= k < |old(store).jobs[id].tags| && old(store).jobs[id].tags[k].key == key)
    {
      if id !in store.jobs {
        return false;
      }
      var tags := store.jobs[id].tags;
      var i := 0;
      while i < |tags|
        invariant 0 <= i <= Find(tags, key) && store == old(store)
      {
        if tags[i].key == key {
          break;
        }
        i := i + 1;
      }
      assert i == Find(tags, key);
      if i == |tags| {
        return false;
      }
      if key == ix {
        DelIndexTag(id);
      }
      store := store.(jobs := store.jobs[id := store.jobs[id].(tags := tags[..i] + tags[i + 1..])]);
      found := true;
    }

    // Drop the entries that no job is linked into.
    method CleanupIndexTag()
      modifies this
      ensures store == Purge(old(store))
    {
      var left := store.table.Keys;
      while left != {}
        invariant left <= old(store).table.Keys && store == old(store).(table := store.table)
        invariant forall v :: v in store.table <==> v in old(store).table && (v in left || old(store).table[v] != [])
        invariant forall v :: v in store.table ==> store.table[v] == old(store).table[v]
        decreases |left|
      {
        var v :| v in left;
        if store.table[v] == [] {
          store := store.(table := store.table - {v});
        }
        left := left - {v};
      }
      assert store.table == Purge(old(store)).table;
    }

    // Whether some tag of a job matches a filter.
    method MatchesFilter(o: Outside, tags: seq<Tag>, f: Tag) returns (match': bool)
      ensures match' == HasMatch(o, tags, f)
    {
      var k := 0;
      while k < |tags|
        invariant 0 <= k <= |tags|
        invariant forall m :: 0 <= m < k ==> !(tags[m].key == f.key && Matches(o, f.value, tags[m].value))
      {
        if tags[k].key == f.key {
          if Matches(o, f.value, tags[k].value) {
            break;
          }
        }
        k := k + 1;
      }
      match' := k < |tags|;
    }

    // Whether a job passes all filters but the one the index answers.
    method PassesFilters(o: Outside, filters: seq<Tag>, skip: Option<nat>, id: JobId) returns (pass: bool)
      requires id in store.jobs
      ensures pass == Picked(store, o, filters, skip, id)
    {
      if store.jobs[id].deleted {
        return false;
      }
      if !o.passes(id) {
        return false;
      }
      for i := 0 to |filters|
        invariant forall m :: 0 <= m < i && skip != Some(m) ==> HasMatch(o, store.jobs[id].tags, filters[m])
      {
        if skip == Some(i) {
          continue;
        }
        var m := MatchesFilter(o, store.jobs[id].tags, filters[i]);
        if !m {
          return false;
        }
      }
      pass := true;
    }

    // The filter the index can answer.
    method ChooseFilter(filters: seq<Tag>) returns (use: Option<nat>)
      ensures use == Usable(store, ix, filters)
    {
      var i := 0;
      while i < |filters|
        invariant 0 <= i <= Find(filters, ix)
      {
        if filters[i].key == ix {
          if !Wild(filters[i].value) && filters[i].value in store.table {
            return Some(i);
          }
          return None;
        }
        i := i + 1;
      }
      use := None;
    }

    // Walk a list of jobs and keep those that pass.
    method Walk(o: Outside, filters: seq<Tag>, use: Option<nat>, list: seq<JobId>) returns (found: seq<JobId>)
      requires forall id :: id in list ==> id in store.jobs
      ensures found == Keep(store, o, filters, use, list)
    {
      found := [];
      KeepNone(store, o, filters, use, list[..0]);
      hide Picked, Keep;
      for k := 0 to |list|
        invariant found == Keep(store, o, filters, use, list[..k])
      {
        KeepNext(store, o, filters, use, list, k);
        var pass := PassesFilters(o, filters, use, list[k]);
        if pass {
          found := found + [list[k]];
        }
      }
      assert list[..|list|] == list;
    }

    // Look jobs up, through the index where the filters allow it.
    method GetJobs(o: Outside, filters: seq<Tag>) returns (found: seq<JobId>)
      requires Inv(store, ix)
      ensures found == Lookup(store, ix, o, filters)
    {
      var use := ChooseFilter(filters);
      var list := if use.Some? then store.table[filters[use.value].value] else store.order;
      forall id | id in list ensures id in store.jobs { assert JobIndexed(store, ix, id); }
      found := Walk(o, filters, use, list);
    }
  }

  lemma KeepNone(s: Store, o: Outside, filters: seq<Tag>, use: Option<nat>, list: seq<JobId>)
    ensures list == [] ==> Keep(s, o, filters, use, list) == []
  {
  }

  lemma {:induction false} KeepNext(s: Store, o: Outside, filters: seq<Tag>, use: Option<nat>, list: seq<JobId>, k: nat)
    requires k < |list|
    ensures Keep(s, o, filters, use, list[..k + 1])
            == Keep(s, o, filters, use, list[..k]) + if Picked(s, o, filters, use, list[k]) then [list[k]] else []
  {
    hide Picked;
    if k == 0 {
      assert list[..1][1..] == [];
    } else {
      assert list[..k + 1][1..] == list[1..][..k] && list[..k][1..] == list[1..][..k - 1];
      KeepNext(s, o, filters, use, list[1..], k - 1);
    }
  }
}
