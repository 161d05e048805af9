/**
 The tag index: jobs that carry the configured tag are also found through a table keyed by its value.
 A lookup through the table gives the same jobs as a scan of all jobs.
 */
module TagIndex {
  import opened Options
  import opened Sequences
  import opened SchedState

  datatype Tag = Tag(key: string, value: string)

  // A job's tags, the table entry it is linked into, and whether it is marked deleted.
  datatype Tagged = Tagged(tags: seq<Tag>, entry: Option<string>, deleted: bool)

  // The jobs in table order, and per value of the indexed tag the jobs that carry it.
  datatype Store = Store(jobs: map<JobId, Tagged>, order: seq<JobId>, table: map<string, seq<JobId>>)

  // -------------------------------------------------------------------------
  // The steps, for an indexed tag ix
  // -------------------------------------------------------------------------

  // The position of the first tag with a key.
  function Find(tags: seq<Tag>, key: string): (i: nat)
    ensures i <= |tags| && (i < |tags| ==> tags[i].key == key)
    ensures forall k :: 0 <= k < i ==> tags[k].key != key
  {
    if tags == [] || tags[0].key == key then 0 else 1 + Find(tags[1..], key)
  }

  function ValueOf(tags: seq<Tag>, key: string): Option<string> {
    var i := Find(tags, key);
    if i < |tags| then Some(tags[i].value) else None
  }

  function EntryOf(table: map<string, seq<JobId>>, v: string): seq<JobId> {
    if v in table then table[v] else []
  }

  function AddIndex(s: Store, id: JobId, v: string): Store
    requires id in s.jobs
  {
    s.(jobs := s.jobs[id := s.jobs[id].(entry := Some(v))], table := s.table[v := EntryOf(s.table, v) + [id]])
  }

  function DelIndex(s: Store, id: JobId): Store
    requires id in s.jobs
  {
    if s.jobs[id].entry.None? then s
    else
      var v := s.jobs[id].entry.value;
      s.(jobs := s.jobs[id := s.jobs[id].(entry := None)], table := s.table[v := Without(EntryOf(s.table, v), id)])
  }

  function WithTags(s: Store, id: JobId, tags: seq<Tag>): Store
    requires id in s.jobs
  {
    s.(jobs := s.jobs[id := s.jobs[id].(tags := tags)])
  }

  function AddJob(s: Store, ix: string, id: JobId, tags: seq<Tag>): Store {
    if id in s.jobs then s
    else
      var s1 := s.(jobs := s.jobs[id := Tagged(tags, None, false)], order := s.order + [id]);
      if ValueOf(tags, ix).Some? then AddIndex(s1, id, ValueOf(tags, ix).value) else s1
  }

  // The tags with one value set, in place or at the end.
  function Set(tags: seq<Tag>, key: string, value: string): seq<Tag> {
    var i := Find(tags, key);
    if i < |tags| then tags[i := Tag(key, value)] else tags + [Tag(key, value)]
  }

  function SetTag(s: Store, ix: string, id: JobId, key: string, value: string): Store {
    if id !in s.jobs then s
    else
      var tags := s.jobs[id].tags;
      var s1 := if key == ix && Find(tags, key) < |tags| then DelIndex(s, id) else s;
      var s2 := WithTags(s1, id, Set(tags, key, value));
      if key == ix then AddIndex(s2, id, value) else s2
  }

  function DelTag(s: Store, ix: string, id: JobId, key: string): Store {
    if id !in s.jobs || Find(s.jobs[id].tags, key) == |s.jobs[id].tags| then s
    else
      var tags := s.jobs[id].tags;
      var i := Find(tags, key);
      WithTags(if key == ix then DelIndex(s, id) else s, id, tags[..i] + tags[i + 1..])
  }

  function MarkDeleted(s: Store, id: JobId): Store {
    if id !in s.jobs then s else s.(jobs := s.jobs[id := s.jobs[id].(deleted := true)])
  }

  function Cleanup(s: Store, id: JobId): Store {
    if id !in s.jobs || !s.jobs[id].deleted then s
    else
      var s1 := DelIndex(s, id);
      s1.(jobs := s1.jobs - {id}, order := Without(s1.order, id))
  }

  function Purge(s: Store): Store {
    s.(table := map v | v in s.table && s.table[v] != [] :: s.table[v])
  }

  // -------------------------------------------------------------------------
  // The invariant, job by job
  // -------------------------------------------------------------------------

  predicate UniqueKeys(tags: seq<Tag>) {
    forall i, k :: 0 <= i < k < |tags| ==> tags[i].key != tags[k].key
  }

  // A job is linked into the entry of its value of the indexed tag, and into no other.
  ghost predicate JobIndexed(s: Store, ix: string, id: JobId) {
    && (id in s.jobs ==> UniqueKeys(s.jobs[id].tags) && s.jobs[id].entry == ValueOf(s.jobs[id].tags, ix))
    && (forall v :: v in s.table ==> (id in s.table[v] <==> id in s.jobs && s.jobs[id].entry == Some(v)))
    && (id in s.jobs && s.jobs[id].entry.Some? ==> s.jobs[id].entry.value in s.table)
  }

  ghost predicate Shape(s: Store) {
    && Distinct(s.order) && (forall id :: id in s.order <==> id in s.jobs)
    && (forall v :: v in s.table ==> Distinct(s.table[v]))
  }

  ghost predicate Inv(s: Store, ix: string) {
    Shape(s) && forall id: JobId :: JobIndexed(s, ix, id)
  }

  lemma {:induction false} FindUnique(tags: seq<Tag>, key: string, i: nat)
    requires UniqueKeys(tags) && i < |tags| && tags[i].key == key
    ensures Find(tags, key) == i
  {
    if i > 0 {
      assert tags[0].key != tags[i].key;
      FindUnique(tags[1..], key, i - 1);
    }
  }

  lemma SetUnique(tags: seq<Tag>, key: string, value: string, ix: string)
    requires UniqueKeys(tags)
    ensures UniqueKeys(Set(tags, key, value))
    ensures ValueOf(Set(tags, key, value), ix) == if key == ix then Some(value) else ValueOf(tags, ix)
  {
    var r := Set(tags, key, value);
    var i := Find(tags, key);
    FindUnique(r, key, i);
    var k := Find(tags, ix);
    if key != ix {
      if k < |tags| { FindUnique(r, ix, k); } else { assert forall m :: 0 <= m < |r| ==> r[m].key != ix; }
    }
  }

  lemma DropUnique(tags: seq<Tag>, i: nat, ix: string)
    requires UniqueKeys(tags) && i < |tags|
    ensures var r := tags[..i] + tags[i + 1..];
            UniqueKeys(r) && ValueOf(r, ix) == if tags[i].key == ix then None else ValueOf(tags, ix)
  {
    var r := tags[..i] + tags[i + 1..];
    DroppedAt(tags, i);
    var k := Find(tags, ix);
    if tags[i].key == ix { FindUnique(tags, ix, i); }
    else if k < |tags| { FindUnique(r, ix, if k < i then k else k - 1); }
    hide Find;
  }

  lemma DroppedAt(tags: seq<Tag>, i: nat)
    requires UniqueKeys(tags) && i < |tags|
    ensures var r := tags[..i] + tags[i + 1..];
            UniqueKeys(r) && |r| == |tags| - 1 && forall m :: 0 <= m < |r| ==> r[m] == if m < i then tags[m] else tags[m + 1]
  {
  }

  // -------------------------------------------------------------------------
  // Every step keeps it
  // -------------------------------------------------------------------------

  lemma AddIndexOther(s: Store, ix: string, id: JobId, v: string, x: JobId)
    requires id in s.jobs && x != id && JobIndexed(s, ix, x)
    ensures JobIndexed(AddIndex(s, id, v), ix, x)
  {
  }

  lemma DelIndexOther(s: Store, ix: string, id: JobId, x: JobId)
    requires id in s.jobs && x != id && JobIndexed(s, ix, x)
    ensures JobIndexed(DelIndex(s, id), ix, x)
  {
    if s.jobs[id].entry.Some? { WithoutMembers(EntryOf(s.table, s.jobs[id].entry.value), id); }
  }

  // A job in no entry.
  ghost predicate Unlinked(s: Store, id: JobId) {
    id in s.jobs && s.jobs[id].entry.None? && forall v :: v in s.table ==> id !in s.table[v]
  }

  lemma DelIndexUnlinks(s: Store, ix: string, id: JobId)
    requires Shape(s) && id in s.jobs && JobIndexed(s, ix, id)
    ensures Unlinked(DelIndex(s, id), id) && Shape(DelIndex(s, id)) && DelIndex(s, id).jobs[id].tags == s.jobs[id].tags
  {
    if s.jobs[id].entry.Some? { WithoutMembers(EntryOf(s.table, s.jobs[id].entry.value), id); }
  }

  lemma AddIndexLinks(s: Store, ix: string, id: JobId, v: string)
    requires Shape(s) && Unlinked(s, id) && UniqueKeys(s.jobs[id].tags) && ValueOf(s.jobs[id].tags, ix) == Some(v)
    ensures JobIndexed(AddIndex(s, id, v), ix, id) && Shape(AddIndex(s, id, v))
  {
  }

  lemma AddKept(s: Store, ix: string, id: JobId, tags: seq<Tag>)
    requires Inv(s, ix) && UniqueKeys(tags)
    ensures Inv(AddJob(s, ix, id, tags), ix)
  {
    if id !in s.jobs {
      assert JobIndexed(s, ix, id);
      var s1 := s.(jobs := s.jobs[id := Tagged(tags, None, false)], order := s.order + [id]);
      forall x: JobId | x != id ensures JobIndexed(s1, ix, x) { assert JobIndexed(s, ix, x); }
      var v := ValueOf(tags, ix);
      if v.Some? {
        AddIndexLinks(s1, ix, id, v.value);
        forall x: JobId | x != id ensures JobIndexed(AddIndex(s1, id, v.value), ix, x) { AddIndexOther(s1, ix, id, v.value, x); }
      }
    }
  }

  lemma RetagOther(s: Store, ix: string, id: JobId, tags: seq<Tag>, x: JobId)
    requires id in s.jobs && x != id && JobIndexed(s, ix, x)
    ensures JobIndexed(WithTags(s, id, tags), ix, x)
  {
  }

  lemma SetKept(s: Store, ix: string, id: JobId, key: string, value: string)
    requires Inv(s, ix)
    ensures Inv(SetTag(s, ix, id, key, value), ix)
  {
    if id in s.jobs {
      assert JobIndexed(s, ix, id);
      SetHere(s, ix, id, key, value);
      forall x: JobId | x != id ensures JobIndexed(SetTag(s, ix, id, key, value), ix, x) {
        assert JobIndexed(s, ix, x);
        SetOther(s, ix, id, key, value, x);
      }
      hide JobIndexed, SetTag;
    }
  }

  lemma SetHere(s: Store, ix: string, id: JobId, key: string, value: string)
    requires Shape(s) && JobIndexed(s, ix, id) && id in s.jobs
    ensures Shape(SetTag(s, ix, id, key, value)) && JobIndexed(SetTag(s, ix, id, key, value), ix, id)
  {
    var tags := s.jobs[id].tags;
    SetUnique(tags, key, value, ix);
    DelIndexUnlinks(s, ix, id);
    var s1 := if key == ix && Find(tags, key) < |tags| then DelIndex(s, id) else s;
    var s2 := WithTags(s1, id, Set(tags, key, value));
    if key == ix { AddIndexLinks(s2, ix, id, value); }
    hide Set, Find, ValueOf;
  }

  lemma SetOther(s: Store, ix: string, id: JobId, key: string, value: string, x: JobId)
    requires x != id && JobIndexed(s, ix, x)
    ensures JobIndexed(SetTag(s, ix, id, key, value), ix, x)
  {
    hide JobIndexed, Find, Set;
    if id in s.jobs {
      var tags := s.jobs[id].tags;
      var s1 := if key == ix && Find(tags, key) < |tags| then DelIndex(s, id) else s;
      DelIndexOther(s, ix, id, x);
      RetagOther(s1, ix, id, Set(tags, key, value), x);
      AddIndexOther(WithTags(s1, id, Set(tags, key, value)), ix, id, value, x);
    }
  }

  lemma DelKept(s: Store, ix: string, id: JobId, key: string)
    requires Inv(s, ix)
    ensures Inv(DelTag(s, ix, id, key), ix)
  {
    if id in s.jobs && Find(s.jobs[id].tags, key) < |s.jobs[id].tags| {
      assert JobIndexed(s, ix, id);
      DroppedTag(s, ix, id, key);
      forall x: JobId | x != id ensures JobIndexed(DelTag(s, ix, id, key), ix, x) {
        assert JobIndexed(s, ix, x);
        DroppedOther(s, ix, id, key, x);
      }
    }
  }

  lemma DroppedTag(s: Store, ix: string, id: JobId, key: string)
    requires Shape(s) && JobIndexed(s, ix, id) && id in s.jobs && Find(s.jobs[id].tags, key) < |s.jobs[id].tags|
    ensures Shape(DelTag(s, ix, id, key)) && JobIndexed(DelTag(s, ix, id, key), ix, id)
  {
    var tags := s.jobs[id].tags;
    DropUnique(tags, Find(tags, key), ix);
    DelIndexUnlinks(s, ix, id);
    hide Find, ValueOf;
  }

  lemma DroppedOther(s: Store, ix: string, id: JobId, key: string, x: JobId)
    requires x != id && JobIndexed(s, ix, x)
    ensures JobIndexed(DelTag(s, ix, id, key), ix, x)
  {
    if id in s.jobs && Find(s.jobs[id].tags, key) < |s.jobs[id].tags| {
      var tags := s.jobs[id].tags;
      var i := Find(tags, key);
      DelIndexOther(s, ix, id, x);
      RetagOther(if key == ix then DelIndex(s, id) else s, ix, id, tags[..i] + tags[i + 1..], x);
      hide JobIndexed, Find;
    }
  }

  lemma MarkKept(s: Store, ix: string, id: JobId)
    requires Inv(s, ix)
    ensures Inv(MarkDeleted(s, id), ix)
  {
    forall x: JobId ensures JobIndexed(MarkDeleted(s, id), ix, x) { assert JobIndexed(s, ix, x); }
  }

  lemma CleanupKept(s: Store, ix: string, id: JobId)
    requires Inv(s, ix)
    ensures Inv(Cleanup(s, id), ix)
  {
    if id in s.jobs && s.jobs[id].deleted {
      assert JobIndexed(s, ix, id);
      DelIndexUnlinks(s, ix, id);
      WithoutMembers(s.order, id);
      forall x: JobId | x != id ensures JobIndexed(Cleanup(s, id), ix, x) {
        assert JobIndexed(s, ix, x);
        DelIndexOther(s, ix, id, x);
      }
    }
  }

  lemma PurgeKept(s: Store, ix: string)
    requires Inv(s, ix)
    ensures Inv(Purge(s), ix)
  {
    forall x: JobId ensures JobIndexed(Purge(s), ix, x) { assert JobIndexed(s, ix, x); }
  }

  // -------------------------------------------------------------------------
  // Runs
  // -------------------------------------------------------------------------

  datatype Event =
    | Add(id: JobId, tags: seq<Tag>)
    | SetValue(id: JobId, key: string, value: string)
    | DropTag(id: JobId, key: string)
    | Mark(id: JobId)
    | Remove(id: JobId)
    | PurgeEmpty

  function Apply(s: Store, ix: string, e: Event): Store {
    match e
    case Add(id, tags) => AddJob(s, ix, id, tags)
    case SetValue(id, key, value) => SetTag(s, ix, id, key, value)
    case DropTag(id, key) => DelTag(s, ix, id, key)
    case Mark(id) => MarkDeleted(s, id)
    case Remove(id) => Cleanup(s, id)
    case PurgeEmpty => Purge(s)
  }

  function Run(s: Store, ix: string, events: seq<Event>): Store
    decreases events
  {
    if events == [] then s else Run(Apply(s, ix, events[0]), ix, events[1..])
  }

  predicate UniqueAdds(events: seq<Event>) {
    forall i :: 0 <= i < |events| && events[i].Add? ==> UniqueKeys(events[i].tags)
  }

  const EMPTY := Store(map[], [], map[])

  lemma {:induction false} RunKept(s: Store, ix: string, events: seq<Event>)
    requires Inv(s, ix) && UniqueAdds(events)
    ensures Inv(Run(s, ix, events), ix)
    decreases events
  {
    if events != [] {
      var e := events[0];
      match e {
        case Add(id, tags) => AddKept(s, ix, id, tags);
        case SetValue(id, key, value) => SetKept(s, ix, id, key, value);
        case DropTag(id, key) => DelKept(s, ix, id, key);
        case Mark(id) => MarkKept(s, ix, id);
        case Remove(id) => CleanupKept(s, ix, id);
        case PurgeEmpty => PurgeKept(s, ix);
      }
      hide Inv, Apply;
      RunKept(Apply(s, ix, e), ix, events[1..]);
    }
  }

  // -------------------------------------------------------------------------
  // Lookups
  // -------------------------------------------------------------------------

  // What fnmatch says of a pattern and a string, and which jobs pass the filters that are not tags.
  datatype Outside = Outside(fnmatch: (string, string) -> bool, passes: JobId -> bool)

  predicate Wild(p: string) {
    '*' in p || '?' in p
  }

  predicate Matches(o: Outside, p: string, v: string) {
    if Wild(p) then o.fnmatch(p, v) else v == p
  }

  predicate HasMatch(o: Outside, tags: seq<Tag>, f: Tag) {
    exists k :: 0 <= k < |tags| && tags[k].key == f.key && Matches(o, f.value, tags[k].value)
  }

  // A job that a scan of the whole table returns.
  predicate Selected(s: Store, o: Outside, filters: seq<Tag>, id: JobId) {
    && id in s.jobs && !s.jobs[id].deleted && o.passes(id)
    && forall i :: 0 <= i < |filters| ==> HasMatch(o, s.jobs[id].tags, filters[i])
  }

  // The filter that can use the index, if its value is in the table.
  function Usable(s: Store, ix: string, filters: seq<Tag>): Option<nat> {
    var i := Find(filters, ix);
    if i < |filters| && !Wild(filters[i].value) && filters[i].value in s.table then Some(i) else None
  }

  function Keep(s: Store, o: Outside, filters: seq<Tag>, skip: Option<nat>, list: seq<JobId>): seq<JobId> {
    if list == [] then []
    else (if Picked(s, o, filters, skip, list[0]) then [list[0]] else []) + Keep(s, o, filters, skip, list[1..])
  }

  predicate Picked(s: Store, o: Outside, filters: seq<Tag>, skip: Option<nat>, id: JobId) {
    && id in s.jobs && !s.jobs[id].deleted && o.passes(id)
    && forall i :: 0 <= i < |filters| && skip != Some(i) ==> HasMatch(o, s.jobs[id].tags, filters[i])
  }

  // The lookup: through one entry of the table with that filter skipped, or through all jobs.
  function Lookup(s: Store, ix: string, o: Outside, filters: seq<Tag>): seq<JobId> {
    var use := Usable(s, ix, filters);
    Keep(s, o, filters, use, if use.Some? then s.table[filters[use.value].value] else s.order)
  }

  lemma {:induction false} KeepMembers(s: Store, o: Outside, filters: seq<Tag>, skip: Option<nat>, list: seq<JobId>)
    ensures forall id: JobId :: id in Keep(s, o, filters, skip, list) <==> id in list && Picked(s, o, filters, skip, id)
    ensures Distinct(list) ==> Distinct(Keep(s, o, filters, skip, list))
  {
    if list != [] {
      KeepMembers(s, o, filters, skip, list[1..]);
      if Distinct(list) { assert list[0] !in list[1..]; }
    }
  }

  // A job has a tag with the indexed key and a plain value exactly when it is linked into that entry.
  lemma MatchIsEntry(s: Store, ix: string, o: Outside, f: Tag, id: JobId)
    requires JobIndexed(s, ix, id) && id in s.jobs && f.key == ix && !Wild(f.value) && f.value in s.table
    ensures HasMatch(o, s.jobs[id].tags, f) <==> id in s.table[f.value]
  {
    var tags := s.jobs[id].tags;
    if HasMatch(o, tags, f) {
      var k :| 0 <= k < |tags| && tags[k].key == ix && Matches(o, f.value, tags[k].value);
      FindUnique(tags, ix, k);
    }
  }

  // In every run, and for every set of filters, the lookup returns each job that the scan selects once,
  // and no other.
  lemma LookupIsScan(ix: string, events: seq<Event>, o: Outside, filters: seq<Tag>, id: JobId)
    requires UniqueAdds(events)
    ensures var s := Run(EMPTY, ix, events);
            && Distinct(Lookup(s, ix, o, filters))
            && (id in Lookup(s, ix, o, filters) <==> Selected(s, o, filters, id))
  {
    RunKept(EMPTY, ix, events);
    var s := Run(EMPTY, ix, events);
    hide Run;
    var use := Usable(s, ix, filters);
    KeepMembers(s, o, filters, use, if use.Some? then s.table[filters[use.value].value] else s.order);
    assert JobIndexed(s, ix, id);
    if use.Some? && id in s.jobs { MatchIsEntry(s, ix, o, filters[use.value], id); }
  }

  // -------------------------------------------------------------------------
  // Repeated keys and replaced tags
  // -------------------------------------------------------------------------

  // An entry holds exactly the jobs that carry its value.
  ghost predicate Exact(s: Store, ix: string, id: JobId) {
    forall v :: v in s.table ==> (id in s.table[v] <==> id in s.jobs && Tag(ix, v) in s.jobs[id].tags)
  }

  // A new job is found through the index as it is by a scan if and only if none of its other values of
  // the indexed tag has an entry.
  lemma AddIsExactIff(s: Store, ix: string, id: JobId, tags: seq<Tag>)
    requires Inv(s, ix) && id !in s.jobs
    ensures Exact(AddJob(s, ix, id, tags), ix, id)
            <==> forall v :: v in s.table && Tag(ix, v) in tags ==> ValueOf(tags, ix) == Some(v)
  {
    assert JobIndexed(s, ix, id);
    var t := AddJob(s, ix, id, tags);
    var first := ValueOf(tags, ix);
    assert first.Some? ==> Tag(ix, first.value) == tags[Find(tags, ix)];
    assert first.None? ==> forall v :: Tag(ix, v) !in tags;
    assert forall v :: v in t.table <==> v in s.table || first == Some(v);
    assert forall v :: v in t.table ==> (id in t.table[v] <==> first == Some(v));
  }

  // Replacing all tags of a job leaves the index alone. The job is then found through it as by a scan
  // if and only if its value of the indexed tag is the same as before, or it had none and the new value
  // has no entry.
  lemma ReplacingTagsIsExactIff(s: Store, ix: string, id: JobId, tags: seq<Tag>)
    requires Inv(s, ix) && id in s.jobs && UniqueKeys(tags)
    ensures var was, now := ValueOf(s.jobs[id].tags, ix), ValueOf(tags, ix);
            Exact(WithTags(s, id, tags), ix, id) <==> was == now || (was.None? && now.value !in s.table)
  {
    assert JobIndexed(s, ix, id);
    var t := WithTags(s, id, tags);
    var was, now := ValueOf(s.jobs[id].tags, ix), ValueOf(tags, ix);
    forall v ensures Tag(ix, v) in tags <==> now == Some(v) {
      if Tag(ix, v) in tags {
        var k :| 0 <= k < |tags| && tags[k] == Tag(ix, v);
        FindUnique(tags, ix, k);
      }
    }
    if was.Some? { assert was.value in t.table; }
  }
}
