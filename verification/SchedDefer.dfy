/**
 The deferred list as a sequence: it holds exactly the jobs that are deferred and not deleted, in
 the order of their times, a new job in front of its equals.
 */
module SchedDefer {
  import opened Options
  import opened Sequences
  import opened SchedState
  import opened SchedSteps

  predicate Listed(j: Job) {
    !j.deleted && j.deferTime != 0
  }

  predicate InOrder(list: seq<JobId>, jobs: map<JobId, Job>) {
    forall i, k :: 0 <= i < k < |list| && list[i] in jobs && list[k] in jobs ==> jobs[list[i]].deferTime <= jobs[list[k]].deferTime
  }

  ghost predicate ListOk(list: seq<JobId>, jobs: map<JobId, Job>) {
    && Distinct(list)
    && (forall id :: id in list <==> id in jobs && Listed(jobs[id]))
    && InOrder(list, jobs)
  }

  // -------------------------------------------------------------------------
  // Insertion
  // -------------------------------------------------------------------------

  lemma {:induction false} InsertMembers(list: seq<JobId>, jobs: map<JobId, Job>, id: JobId)
    requires id in jobs
    ensures forall x :: x in InsertInOrder(list, jobs, id) <==> x == id || x in list
    ensures Distinct(list) && id !in list ==> Distinct(InsertInOrder(list, jobs, id))
  {
    if !(list == [] || (list[0] in jobs && jobs[list[0]].deferTime >= jobs[id].deferTime)) {
      InsertMembers(list[1..], jobs, id);
      if Distinct(list) { assert list[0] !in list[1..] && list[0] in list; }
    }
  }

  // The new job splits the list: strictly earlier jobs before it, jobs at least as late behind it.
  lemma SplitBehind(list: seq<JobId>, k: nat, id: JobId)
    requires k < |list|
    ensures [list[0]] + (list[1..][..k] + [id] + list[1..][k..]) == list[..k + 1] + [id] + list[k + 1..]
  {
    assert list[..k + 1] == [list[0]] + list[1..][..k] && list[k + 1..] == list[1..][k..];
  }

  lemma {:induction false} InsertSplits(list: seq<JobId>, jobs: map<JobId, Job>, id: JobId) returns (n: nat)
    requires id in jobs && (forall x :: x in list ==> x in jobs) && InOrder(list, jobs)
    ensures n <= |list| && InsertInOrder(list, jobs, id) == list[..n] + [id] + list[n..]
    ensures forall i :: 0 <= i < n ==> jobs[list[i]].deferTime < jobs[id].deferTime
    ensures forall i :: n <= i < |list| ==> jobs[list[i]].deferTime >= jobs[id].deferTime
  {
    if list == [] {
      n := 0;
    } else if jobs[list[0]].deferTime >= jobs[id].deferTime {
      n := 0;
      assert list[..0] + [id] + list[0..] == [id] + list;
    } else {
      assert list[0] in list;
      var k := InsertSplits(list[1..], jobs, id);
      n := k + 1;
      SplitBehind(list, k, id);
      assert forall i :: 1 <= i < |list| ==> list[i] == list[1..][i - 1];
    }
  }

  lemma InsertInOrderKept(list: seq<JobId>, jobs: map<JobId, Job>, id: JobId)
    requires id in jobs && (forall x :: x in list ==> x in jobs) && InOrder(list, jobs)
    ensures InOrder(InsertInOrder(list, jobs, id), jobs)
  {
    var n := InsertSplits(list, jobs, id);
    var r := InsertInOrder(list, jobs, id);
    assert forall i :: 0 <= i < |r| ==> r[i] == if i < n then list[i] else if i == n then id else list[i - 1];
  }

  // A job that was not listed becomes listed.
  lemma InsertListed(list: seq<JobId>, jobs: map<JobId, Job>, id: JobId, j: Job)
    requires ListOk(list, jobs) && (id in jobs ==> !Listed(jobs[id])) && Listed(j)
    ensures ListOk(InsertInOrder(list, jobs[id := j], id), jobs[id := j])
  {
    var jobs' := jobs[id := j];
    assert id !in list;
    assert InOrder(list, jobs');
    InsertMembers(list, jobs', id);
    InsertInOrderKept(list, jobs', id);
  }

  // -------------------------------------------------------------------------
  // Removal
  // -------------------------------------------------------------------------

  lemma {:induction false} WithoutInOrder(list: seq<JobId>, jobs: map<JobId, Job>, id: JobId)
    requires (forall x :: x in list ==> x in jobs) && InOrder(list, jobs)
    ensures InOrder(Without(list, id), jobs)
  {
    if list != [] {
      WithoutInOrder(list[1..], jobs, id);
      WithoutMembers(list[1..], id);
      assert forall x :: x in list[1..] ==> jobs[list[0]].deferTime <= jobs[x].deferTime;
    }
  }

  // A listed job stops being listed.
  lemma RemoveListed(list: seq<JobId>, jobs: map<JobId, Job>, id: JobId, j: Job)
    requires ListOk(list, jobs) && id in jobs && !Listed(j)
    ensures ListOk(Without(list, id), jobs[id := j])
  {
    WithoutMembers(list, id);
    WithoutInOrder(list, jobs, id);
  }

  // The list sees only the deferral and the deletion of a job.
  lemma SameListed(list: seq<JobId>, jobs: map<JobId, Job>, id: JobId, j: Job)
    requires ListOk(list, jobs) && id in jobs && j.deferTime == jobs[id].deferTime && Listed(j) == Listed(jobs[id])
    ensures ListOk(list, jobs[id := j])
  {
  }

  lemma {:induction false} WithoutAbsent(list: seq<JobId>, id: JobId)
    requires id !in list
    ensures Without(list, id) == list
  {
    if list != [] {
      assert list[0] in list;
      WithoutAbsent(list[1..], id);
    }
  }

  // A changed deferral moves the job to its new place.
  lemma ModListOk(list: seq<JobId>, jobs: map<JobId, Job>, id: JobId, j: Job, now: Option<int>)
    requires ListOk(list, jobs) && id in jobs && !jobs[id].deleted && !j.deleted
    requires j.deferTime == OrElse(now, jobs[id].deferTime)
    ensures ListOk(ModList(list, jobs[id := j], id, jobs[id].deferTime, now), jobs[id := j])
  {
    if now.None? {
      SameListed(list, jobs, id, j);
    } else {
      var off := jobs[id].(deferTime := 0);
      RemoveListed(list, jobs, id, off);
      if jobs[id].deferTime == 0 { WithoutAbsent(list, id); }
      var rest := Without(list, id);
      if now.value != 0 { InsertListed(rest, jobs[id := off], id, j); }
      else { SameListed(rest, jobs[id := off], id, j); }
      assert jobs[id := off][id := j] == jobs[id := j];
    }
  }
}
