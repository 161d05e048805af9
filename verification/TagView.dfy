/**
 What the tag commands mean. For every run, the tags of a job are the map that its commands leave behind,
 and a lookup returns exactly the jobs whose map answers the filters.
 */
module TagView {
  import opened SchedState
  import opened TagIndex

  // A job as its user sees it: a value per key.
  datatype Labels = Labels(tags: map<string, string>, deleted: bool)

  function MapOf(tags: seq<Tag>): map<string, string> {
    if tags == [] then map[] else MapOf(tags[1..])[tags[0].key := tags[0].value]
  }

  function LabelStep(p: map<JobId, Labels>, e: Event): map<JobId, Labels> {
    match e
    case Add(id, tags) => if id in p then p else p[id := Labels(MapOf(tags), false)]
    case SetValue(id, key, value) => if id in p then p[id := p[id].(tags := p[id].tags[key := value])] else p
    case DropTag(id, key) => if id in p then p[id := p[id].(tags := p[id].tags - {key})] else p
    case Mark(id) => if id in p then p[id := p[id].(deleted := true)] else p
    case Remove(id) => if id in p && p[id].deleted then p - {id} else p
    case PurgeEmpty => p
  }

  function LabelRun(p: map<JobId, Labels>, events: seq<Event>): map<JobId, Labels>
    decreases events
  {
    if events == [] then p else LabelRun(LabelStep(p, events[0]), events[1..])
  }

  // -------------------------------------------------------------------------
  // Lists of tags as maps
  // -------------------------------------------------------------------------

  lemma {:induction false} MapMembers(tags: seq<Tag>, key: string)
    ensures key in MapOf(tags) <==> exists k :: 0 <= k < |tags| && tags[k].key == key
  {
    if tags != [] {
      MapMembers(tags[1..], key);
      if k :| 0 <= k < |tags[1..]| && tags[1..][k].key == key { assert tags[k + 1].key == key; }
      if k :| 0 < k < |tags| && tags[k].key == key { assert tags[1..][k - 1].key == key; }
      if tags[0].key == key { assert 0 < |tags|; }
    }
  }

  lemma {:induction false} MapAt(tags: seq<Tag>, k: nat)
    requires UniqueKeys(tags) && k < |tags|
    ensures tags[k].key in MapOf(tags) && MapOf(tags)[tags[k].key] == tags[k].value
  {
    if k > 0 {
      assert tags[1..][k - 1] == tags[k];
      MapAt(tags[1..], k - 1);
    }
  }

  lemma {:induction false} SetIsUpdate(tags: seq<Tag>, key: string, value: string)
    ensures MapOf(Set(tags, key, value)) == MapOf(tags)[key := value]
  {
    if tags != [] && tags[0].key != key {
      SetIsUpdate(tags[1..], key, value);
      SetBehind(tags, key, value);
      hide Set;
    } else {
      assert Set(tags, key, value)[1..] == if tags == [] then [] else tags[1..];
    }
  }

  lemma SetBehind(tags: seq<Tag>, key: string, value: string)
    requires tags != [] && tags[0].key != key
    ensures Set(tags, key, value) == [tags[0]] + Set(tags[1..], key, value)
  {
  }

  lemma {:induction false} DropIsRemoval(tags: seq<Tag>, i: nat)
    requires UniqueKeys(tags) && i < |tags|
    ensures MapOf(tags[..i] + tags[i + 1..]) == MapOf(tags) - {tags[i].key}
  {
    var rest := tags[..i] + tags[i + 1..];
    if i == 0 {
      assert rest == tags[1..];
      MapMembers(tags[1..], tags[0].key);
    } else {
      assert rest[1..] == tags[1..][..i - 1] + tags[1..][i..];
      assert rest[0] == tags[0] && tags[1..][i - 1] == tags[i];
      DropIsRemoval(tags[1..], i - 1);
    }
  }

  // -------------------------------------------------------------------------
  // Runs
  // -------------------------------------------------------------------------

  // The store holds the same jobs with the same tags and marks.
  ghost predicate Shows(s: Store, p: map<JobId, Labels>) {
    && (forall id :: id in s.jobs <==> id in p)
    && (forall id :: id in p ==> p[id] == Labels(MapOf(s.jobs[id].tags), s.jobs[id].deleted))
  }

  // One job is rewritten.
  lemma ShowsOne(s: Store, p: map<JobId, Labels>, id: JobId, t: Store, l: Labels)
    requires Shows(s, p) && id in t.jobs && l == Labels(MapOf(t.jobs[id].tags), t.jobs[id].deleted)
    requires t.jobs == s.jobs[id := t.jobs[id]]
    ensures Shows(t, p[id := l])
  {
  }

  lemma SetShows(s: Store, ix: string, p: map<JobId, Labels>, id: JobId, key: string, value: string)
    requires Shows(s, p) && id in s.jobs
    ensures Shows(SetTag(s, ix, id, key, value), LabelStep(p, SetValue(id, key, value)))
  {
    var t := SetTag(s, ix, id, key, value);
    SetIsUpdate(s.jobs[id].tags, key, value);
    assert t.jobs[id].tags == Set(s.jobs[id].tags, key, value) && t.jobs[id].deleted == s.jobs[id].deleted;
    assert t.jobs == s.jobs[id := t.jobs[id]];
    hide SetTag, Set, MapOf;
    ShowsOne(s, p, id, t, Labels(MapOf(t.jobs[id].tags), t.jobs[id].deleted));
  }

  lemma DropShows(s: Store, ix: string, p: map<JobId, Labels>, id: JobId, key: string)
    requires Shows(s, p) && id in s.jobs && UniqueKeys(s.jobs[id].tags)
    ensures Shows(DelTag(s, ix, id, key), LabelStep(p, DropTag(id, key)))
  {
    var t, tags := DelTag(s, ix, id, key), s.jobs[id].tags;
    var i := Find(tags, key);
    if i < |tags| {
      DropIsRemoval(tags, i);
      assert t.jobs[id].tags == tags[..i] + tags[i + 1..] && t.jobs[id].deleted == s.jobs[id].deleted;
      assert t.jobs == s.jobs[id := t.jobs[id]];
    } else {
      MapMembers(tags, key);
      assert MapOf(tags) - {key} == MapOf(tags);
    }
    hide DelTag, Find, MapOf, UniqueKeys;
    ShowsOne(s, p, id, t, Labels(MapOf(t.jobs[id].tags), t.jobs[id].deleted));
  }

  lemma StepShows(s: Store, ix: string, p: map<JobId, Labels>, e: Event)
    requires Inv(s, ix) && Shows(s, p) && (e.Add? ==> UniqueKeys(e.tags))
    ensures Shows(TagIndex.Apply(s, ix, e), LabelStep(p, e))
  {
    match e
    case Add(id, tags) =>
      if id !in s.jobs {
        var t := AddJob(s, ix, id, tags);
        assert t.jobs == s.jobs[id := t.jobs[id]];
        ShowsOne(s, p, id, t, Labels(MapOf(tags), false));
      }
    case SetValue(id, key, value) => if id in s.jobs { SetShows(s, ix, p, id, key, value); }
    case DropTag(id, key) =>
      if id in s.jobs {
        assert JobIndexed(s, ix, id);
        DropShows(s, ix, p, id, key);
      }
    case Mark(id) =>
    case Remove(id) =>
    case PurgeEmpty =>
  }

  lemma {:induction false} RunShows(s: Store, ix: string, p: map<JobId, Labels>, events: seq<Event>)
    requires Inv(s, ix) && Shows(s, p) && UniqueAdds(events)
    ensures Shows(TagIndex.Run(s, ix, events), LabelRun(p, events))
    decreases events
  {
    if events != [] {
      StepShows(s, ix, p, events[0]);
      StepKept(s, ix, events[0]);
      hide Inv, Shows, TagIndex.Apply, LabelStep;
      RunShows(TagIndex.Apply(s, ix, events[0]), ix, LabelStep(p, events[0]), events[1..]);
    }
  }

  lemma StepKept(s: Store, ix: string, e: Event)
    requires Inv(s, ix) && (e.Add? ==> UniqueKeys(e.tags))
    ensures Inv(TagIndex.Apply(s, ix, e), ix)
  {
    RunKept(s, ix, [e]);
    hide Inv, TagIndex.Apply;
    assert TagIndex.Run(s, ix, [e]) == TagIndex.Run(TagIndex.Apply(s, ix, e), ix, []);
  }

  // The job's map answers a filter: with the value itself, or one that matches the pattern.
  predicate Answers(tags: map<string, string>, o: Outside, f: Tag) {
    && f.key in tags
    && (if '*' in f.value || '?' in f.value then o.fnmatch(f.value, tags[f.key]) else tags[f.key] == f.value)
  }

  lemma MatchIsAnswer(o: Outside, tags: seq<Tag>, f: Tag)
    requires UniqueKeys(tags)
    ensures HasMatch(o, tags, f) <==> Answers(MapOf(tags), o, f)
  {
    MapMembers(tags, f.key);
    forall k | 0 <= k < |tags| ensures tags[k].key in MapOf(tags) && MapOf(tags)[tags[k].key] == tags[k].value { MapAt(tags, k); }
    hide MapOf;
    if Answers(MapOf(tags), o, f) {
      var k :| 0 <= k < |tags| && tags[k].key == f.key;
      assert Matches(o, f.value, tags[k].value);
    }
  }

  // For every run, every indexed tag and every set of filters: a lookup returns a job if and only if the
  // commands have left it in the table unmarked, it passes what else is asked, and its map answers each filter.
  lemma LookupMeansAnswers(ix: string, events: seq<Event>, o: Outside, filters: seq<Tag>, id: JobId)
    requires UniqueAdds(events)
    ensures var p := LabelRun(map[], events);
            id in Lookup(TagIndex.Run(EMPTY, ix, events), ix, o, filters) <==>
            && id in p && !p[id].deleted && o.passes(id)
            && forall i :: 0 <= i < |filters| ==> Answers(p[id].tags, o, filters[i])
  {
    var s := TagIndex.Run(EMPTY, ix, events);
    LookupIsScan(ix, events, o, filters, id);
    RunShows(EMPTY, ix, map[], events);
    RunKept(EMPTY, ix, events);
    assert JobIndexed(s, ix, id);
    hide TagIndex.Run, LabelRun, Lookup, JobIndexed, Inv;
    if id in s.jobs {
      forall i | 0 <= i < |filters| ensures HasMatch(o, s.jobs[id].tags, filters[i]) <==> Answers(MapOf(s.jobs[id].tags), o, filters[i]) {
        JobKeys(s, ix, id);
        MatchIsAnswer(o, s.jobs[id].tags, filters[i]);
      }
    }
    hide HasMatch, Answers;
  }

  lemma JobKeys(s: Store, ix: string, id: JobId)
    requires JobIndexed(s, ix, id) && id in s.jobs
    ensures UniqueKeys(s.jobs[id].tags)
  {
  }
}
