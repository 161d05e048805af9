/**
 Handing out job ids: a cyclic search for a free id which, when there is none, cleans up some deleted
 jobs and starts again.
 */
module JobIds {

  // A job of the table, in iteration order. A deleted job that is dirty or being saved is not removed.
  datatype Entry = Entry(id: nat, deleted: bool, dirty: bool, flushing: bool) {
    predicate Refused() { dirty || flushing }
  }

  const ROUND := 5

  function Ids(table: seq<Entry>): set<nat> {
    set i | 0 <= i < |table| :: table[i].id
  }

  predicate UniqueIds(table: seq<Entry>) {
    forall i, k :: 0 <= i < k < |table| ==> table[i].id != table[k].id
  }

  function DeletedCount(table: seq<Entry>): nat {
    if table == [] then 0 else (if table[0].deleted then 1 else 0) + DeletedCount(table[1..])
  }

  // -------------------------------------------------------------------------
  // The cyclic search
  // -------------------------------------------------------------------------

  // The k-th id tried after the old start.
  function Tried(start: nat, max: nat, k: nat): nat {
    var from := if start > max then 0 else start;
    if from + k <= max then from + k else from + k - max
  }

  predicate Taken(table: seq<Entry>, id: nat) {
    id in Ids(table)
  }

  // The search starts with the id behind the old start, goes up by one, and on from max to 1. It tries
  // every id from 1 to max, each once.
  lemma TriedIsEveryId(start: nat, max: nat, id: nat)
    ensures max > 0 ==> Tried(start, max, 1) == if start < max then start + 1 else 1
    ensures forall k :: 1 <= k < max ==> Tried(start, max, k + 1) == if Tried(start, max, k) < max then Tried(start, max, k) + 1 else 1
    ensures 1 <= id <= max ==> exists k :: 1 <= k <= max && Tried(start, max, k) == id
    ensures forall k :: 1 <= k <= max ==> 1 <= Tried(start, max, k) <= max
    ensures forall k, m :: 1 <= k < m <= max ==> Tried(start, max, k) != Tried(start, max, m)
  {
    if 1 <= id <= max {
      var from := if start > max then 0 else start;
      var k := if id > from then id - from else id + max - from;
      assert 1 <= k <= max && Tried(start, max, k) == id;
    }
  }

  predicate Free(table: seq<Entry>, max: nat) {
    exists id :: 1 <= id <= max && !Taken(table, id)
  }

  // -------------------------------------------------------------------------
  // One cleanup
  // -------------------------------------------------------------------------

  // What is left after visiting up to n deleted jobs.
  function Swept(table: seq<Entry>, n: nat): seq<Entry> {
    if table == [] || n == 0 then table
    else if !table[0].deleted then [table[0]] + Swept(table[1..], n)
    else if table[0].Refused() then [table[0]] + Swept(table[1..], n - 1)
    else Swept(table[1..], n - 1)
  }

  function Visited(table: seq<Entry>, n: nat): nat {
    if DeletedCount(table) < n then DeletedCount(table) else n
  }

  function RemovedCount(table: seq<Entry>, n: nat): nat {
    if table == [] || n == 0 then 0
    else if !table[0].deleted then RemovedCount(table[1..], n)
    else if table[0].Refused() then RemovedCount(table[1..], n - 1)
    else 1 + RemovedCount(table[1..], n - 1)
  }

  lemma {:induction false} SweptCount(table: seq<Entry>, n: nat)
    ensures DeletedCount(Swept(table, n)) + RemovedCount(table, n) == DeletedCount(table)
  {
    if !(table == [] || n == 0) { SweptCount(table[1..], if table[0].deleted then n - 1 else n); }
  }

  lemma {:induction false} SweptIds(table: seq<Entry>, n: nat, id: nat)
    ensures Taken(Swept(table, n), id) ==> Taken(table, id)
  {
    if !(table == [] || n == 0) {
      var m := if table[0].deleted then n - 1 else n;
      SweptIds(table[1..], m, id);
      TakenHere(table, id);
      if table[0].deleted && !table[0].Refused() {} else { TakenHere([table[0]] + Swept(table[1..], m), id); }
    }
  }

  lemma TakenHere(table: seq<Entry>, id: nat)
    requires table != []
    ensures Taken(table, id) <==> table[0].id == id || Taken(table[1..], id)
  {
    if Taken(table, id) {
      var i :| 0 <= i < |table| && table[i].id == id;
      if i > 0 { assert table[1..][i - 1].id == id; }
    }
    if Taken(table[1..], id) {
      var i :| 0 <= i < |table[1..]| && table[1..][i].id == id;
      assert table[i + 1].id == id;
    }
  }

  lemma {:induction false} SweptUnique(table: seq<Entry>, n: nat)
    requires UniqueIds(table)
    ensures UniqueIds(Swept(table, n))
  {
    if !(table == [] || n == 0) {
      var m := if table[0].deleted then n - 1 else n;
      SweptUnique(table[1..], m);
      var rest := Swept(table[1..], m);
      assert !Taken(table[1..], table[0].id);
      SweptIds(table[1..], m, table[0].id);
      assert forall i :: 0 <= i < |rest| ==> rest[i].id in Ids(rest);
    }
  }

  // -------------------------------------------------------------------------
  // When the search ends
  // -------------------------------------------------------------------------

  function After(table: seq<Entry>, k: nat): seq<Entry>
    decreases k
  {
    if k == 0 then table else After(Swept(table, ROUND), k - 1)
  }

  // A call answers without starting again: an id is free, or no deleted job is left.
  predicate Answers(table: seq<Entry>, max: nat) {
    Free(table, max) || DeletedCount(table) == 0
  }

  ghost predicate Ends(table: seq<Entry>, max: nat) {
    exists k: nat :: Answers(After(table, k), max)
  }

  predicate AnyRefused(table: seq<Entry>) {
    exists i :: 0 <= i < |table| && table[i].deleted && table[i].Refused()
  }

  // A removable job whose id can be handed out, with fewer than n refused jobs in front of it.
  predicate Helps(table: seq<Entry>, n: nat, max: nat) {
    if table == [] || n == 0 then false
    else if !table[0].deleted then Helps(table[1..], n, max)
    else if table[0].Refused() then Helps(table[1..], n - 1, max)
    else 1 <= table[0].id <= max || Helps(table[1..], n, max)
  }

  // The exact condition, from the table alone.
  predicate WillEnd(table: seq<Entry>, max: nat) {
    Free(table, max) || !AnyRefused(table) || Helps(table, ROUND, max)
  }

  lemma {:induction false} RefusedStay(table: seq<Entry>, n: nat)
    ensures AnyRefused(Swept(table, n)) <==> AnyRefused(table)
  {
    if !(table == [] || n == 0) {
      var m := if table[0].deleted then n - 1 else n;
      RefusedStay(table[1..], m);
      RefusedHere(table);
      if table[0].deleted && !table[0].Refused() {} else { RefusedHere([table[0]] + Swept(table[1..], m)); }
    }
  }

  lemma RefusedHere(table: seq<Entry>)
    requires table != []
    ensures AnyRefused(table) <==> (table[0].deleted && table[0].Refused()) || AnyRefused(table[1..])
  {
    if AnyRefused(table) {
      var i :| 0 <= i < |table| && table[i].deleted && table[i].Refused();
      if i > 0 { assert table[1..][i - 1] == table[i]; }
    }
    if AnyRefused(table[1..]) {
      var i :| 0 <= i < |table[1..]| && table[1..][i].deleted && table[1..][i].Refused();
      assert table[i + 1] == table[1..][i];
    }
  }

  lemma {:induction false} RefusedCounts(table: seq<Entry>)
    requires AnyRefused(table)
    ensures DeletedCount(table) > 0
  {
    RefusedHere(table);
    if !(table[0].deleted && table[0].Refused()) { RefusedCounts(table[1..]); }
  }

  // Nothing useful within reach: a sweep frees no id, and leaves nothing useful within reach.
  lemma {:induction false} UselessSweep(table: seq<Entry>, m: nat, n: nat, max: nat, id: nat)
    requires !Helps(table, n, max) && m <= n && 1 <= id <= max
    ensures Taken(Swept(table, m), id) <==> Taken(table, id)
    ensures !Helps(Swept(table, m), n, max)
  {
    if !(table == [] || m == 0) {
      TakenHere(table, id);
      var e := table[0];
      var m', n' := if e.deleted then m - 1 else m, if e.deleted && e.Refused() then n - 1 else n;
      UselessSweep(table[1..], m', n', max, id);
      if !(e.deleted && !e.Refused()) {
        var kept := [e] + Swept(table[1..], m');
        assert kept[1..] == Swept(table[1..], m');
        TakenHere(kept, id);
      }
    }
  }

  lemma UselessRound(table: seq<Entry>, max: nat)
    requires !WillEnd(table, max)
    ensures !WillEnd(Swept(table, ROUND), max) && !Answers(table, max)
  {
    RefusedStay(table, ROUND);
    RefusedCounts(table);
    forall id | 1 <= id <= max ensures Taken(Swept(table, ROUND), id) { UselessSweep(table, ROUND, ROUND, max, id); }
    if max > 0 { UselessSweep(table, ROUND, ROUND, max, 1); } else { NoIds(Swept(table, ROUND), ROUND); }
  }

  lemma {:induction false} NoIds(table: seq<Entry>, n: nat)
    ensures !Helps(table, n, 0)
  {
    if !(table == [] || n == 0) { NoIds(table[1..], if table[0].deleted && table[0].Refused() then n - 1 else n); }
  }

  lemma {:induction false} NeverAnswers(table: seq<Entry>, max: nat, k: nat)
    requires !WillEnd(table, max)
    ensures !Answers(After(table, k), max)
    decreases k
  {
    UselessRound(table, max);
    if k > 0 { NeverAnswers(Swept(table, ROUND), max, k - 1); }
  }

  // Something useful within reach, or nothing refused: a sweep removes a job.
  lemma {:induction false} HelpfulSweep(table: seq<Entry>, m: nat, n: nat, max: nat)
    requires 0 < m && n <= m && DeletedCount(table) > 0
    requires !AnyRefused(table) || Helps(table, n, max)
    ensures RemovedCount(table, m) > 0
  {
    RefusedHere(table);
    var e := table[0];
    if !e.deleted {
      HelpfulSweep(table[1..], m, n, max);
    } else if e.Refused() {
      HelpsCounts(table[1..], n - 1, max);
      HelpfulSweep(table[1..], m - 1, n - 1, max);
    }
  }

  lemma {:induction false} HelpsCounts(table: seq<Entry>, n: nat, max: nat)
    requires Helps(table, n, max)
    ensures DeletedCount(table) > 0 && n > 0
  {
    if !table[0].deleted { HelpsCounts(table[1..], n, max); }
  }

  // What was useful stays within reach, unless an id has become free.
  lemma {:induction false} SweptFreed(table: seq<Entry>, m: nat, n: nat, max: nat)
    requires Helps(table, n, max) && UniqueIds(table) && m <= n
    ensures Helps(Swept(table, m), n, max) || exists id :: 1 <= id <= max && Taken(table, id) && !Taken(Swept(table, m), id)
  {
    if m > 0 {
      var e := table[0];
      TakenHere(table, e.id);
      assert !Taken(table[1..], e.id);
      if e.deleted && !e.Refused() && 1 <= e.id <= max {
        SweptIds(table[1..], m - 1, e.id);
      } else {
        var m', n' := if e.deleted then m - 1 else m, if e.deleted && e.Refused() then n - 1 else n;
        SweptFreed(table[1..], m', n', max);
        var rest := Swept(table[1..], m');
        if !(e.deleted && !e.Refused()) { assert ([e] + rest)[1..] == rest; }
        if !Helps(rest, n', max) {
          var id :| 1 <= id <= max && Taken(table[1..], id) && !Taken(rest, id);
          TakenHere(table, id);
          if !(e.deleted && !e.Refused()) { TakenHere([e] + rest, id); }
        }
      }
    }
  }

  lemma HelpfulRound(table: seq<Entry>, max: nat)
    requires WillEnd(table, max) && UniqueIds(table) && !Answers(table, max)
    ensures WillEnd(Swept(table, ROUND), max) && UniqueIds(Swept(table, ROUND))
    ensures DeletedCount(Swept(table, ROUND)) < DeletedCount(table)
  {
    HelpfulSweep(table, ROUND, ROUND, max);
    SweptCount(table, ROUND);
    SweptUnique(table, ROUND);
    RefusedStay(table, ROUND);
    if Helps(table, ROUND, max) { SweptFreed(table, ROUND, ROUND, max); }
  }

  lemma {:induction false} FinallyAnswers(table: seq<Entry>, max: nat) returns (k: nat)
    requires WillEnd(table, max) && UniqueIds(table)
    ensures Answers(After(table, k), max)
    decreases DeletedCount(table)
  {
    if Answers(table, max) {
      k := 0;
    } else {
      HelpfulRound(table, max);
      k := FinallyAnswers(Swept(table, ROUND), max);
      k := k + 1;
    }
  }

  // The search comes to an end if and only if an id is free, no deleted job is refused, or a job that
  // is not refused and whose id is in range comes before the fifth refused one.
  lemma SearchEndsIff(table: seq<Entry>, max: nat)
    requires UniqueIds(table)
    ensures Ends(table, max) <==> WillEnd(table, max)
  {
    if WillEnd(table, max) {
      var k := FinallyAnswers(table, max);
    } else {
      forall k: nat ensures !Answers(After(table, k), max) { NeverAnswers(table, max, k); }
    }
  }

  // -------------------------------------------------------------------------
  // The allocator
  // -------------------------------------------------------------------------

  class Allocator {
    const max: nat
    var table: seq<Entry>
    var start: nat
    var deleted: nat

    ghost predicate Valid()
      reads this
    {
      UniqueIds(table) && deleted == DeletedCount(table)
    }

    constructor (max: nat, start: nat)
      ensures Valid() && table == [] && this.start == start && this.max == max
    {
      this.max, this.start, table, deleted := max, start, [], 0;
    }

    // Visit deleted jobs up to a number, removing those that are not refused; the visits are counted.
    method CleanupJobs(limit: nat) returns (cleaned: nat)
      requires Valid()
      modifies `table, `deleted
      ensures var n := if limit == 0 then 10 else limit;
              table == Swept(old(table), n) && cleaned == Visited(old(table), n) && Valid()
    {
      if deleted == 0 {
        NothingToSweep(table, if limit == 0 then 10 else limit);
        return 0;
      }
      var n := if limit == 0 then 10 else limit;
      SweptUnique(table, n);
      ghost var was := table;
      SweepStart(table, n);
      hide Sweeping, Swept, Visited, DeletedCount, UniqueIds;
      cleaned := 0;
      var i := 0;
      while i < |table|
        invariant 0 <= i <= |table| && cleaned < n && Sweeping(table, i, was, n, cleaned, deleted)
        decreases |table| - i
      {
        SweepStep(table, i, was, n, cleaned, deleted);
        if !table[i].deleted {
          i := i + 1;
          continue;
        }
        if table[i].dirty || table[i].flushing {
          i := i + 1;
        } else {
          table := table[..i] + table[i + 1..];
          deleted := deleted - 1;
        }
        cleaned := cleaned + 1;
        if cleaned >= n {
          break;
        }
      }
      SweepDone(table, i, was, n, cleaned, deleted);
    }

    // The least free id above the old start, or the least of all if there is none above it; 0 if there is
    // none at all and nothing to clean up. Jobs leave the table only by clean-ups. The condition is exactly
    // that of the search coming to an end.
    method GetNextJobID() returns (id: nat)
      requires Valid() && WillEnd(table, max)
      modifies this
      ensures Valid()
      ensures exists k: nat :: table == After(old(table), k)
      ensures forall e :: e in table ==> e in old(table)
      ensures forall e :: e in old(table) && (!e.deleted || e.dirty || e.flushing) ==> e in table
      ensures id != 0 ==> start == id && 1 <= id <= max && forall i :: 0 <= i < |table| ==> table[i].id != id
      ensures id != 0 && old(start) < id ==> forall x :: old(start) < x < id ==> Taken(table, x)
      ensures id != 0 && id <= old(start) ==>
                && (forall x :: old(start) < x <= max ==> Taken(table, x))
                && (forall x :: 1 <= x < id ==> Taken(table, x))
      ensures id == 0 ==> start == old(start) && (forall i :: 0 <= i < |table| ==> !table[i].deleted)
      ensures id == 0 ==> forall x :: 1 <= x <= max ==> Taken(table, x)
      decreases DeletedCount(table)
    {
      hide Free, Swept, DeletedCount, UniqueIds, WillEnd, Taken, FirstFree;
      var found := SearchFree();
      if found != 0 {
        assert table == After(old(table), 0);
        start := found;
        return found;
      }
      SweptKeeps(table, ROUND);
      var cleaned := CleanupJobs(ROUND);
      if cleaned > 0 {
        RoundGoesOn(old(table), max);
        id := GetNextJobID();
        ghost var k: nat :| table == After(Swept(old(table), ROUND), k);
        assert table == After(old(table), k + 1);
        return;
      }
      NoneVisited(old(table), ROUND);
      NoneDeleted(table);
      assert table == After(old(table), 0);
      id := 0;
    }

    // One round through all ids; 0 if none is free.
    method SearchFree() returns (id: nat)
      ensures id != 0 ==> LeastFree(table, start, max, id)
      ensures id == 0 ==> forall x :: 1 <= x <= max ==> Taken(table, x)
    {
      var tried := start;
      var i := 0;
      while i < max
        invariant 0 <= i <= max
        invariant if i == 0 then tried == start else tried == Tried(start, max, i)
        invariant forall k :: 1 <= k <= i ==> Taken(table, Tried(start, max, k))
      {
        tried := tried + 1;
        if tried > max {
          tried := 1;
        }
        assert tried == Tried(start, max, i + 1);
        if tried !in Ids(table) {
          assert FirstFree(table, start, max, i + 1, tried);
          FirstFreeIsLeast(table, start, max, i + 1, tried);
          return tried;
        }
        i := i + 1;
      }
      AllTaken(table, start, max);
      id := 0;
    }
  }

  // A free id: the least above the start, or there is none there and it is the least of all.
  predicate LeastFree(table: seq<Entry>, start: nat, max: nat, id: nat) {
    && 1 <= id <= max && (forall i :: 0 <= i < |table| ==> table[i].id != id)
    && (start < id ==> forall x :: start < x < id ==> Taken(table, x))
    && (id <= start ==> (forall x :: start < x <= max ==> Taken(table, x)) && forall x :: 1 <= x < id ==> Taken(table, x))
  }

  lemma RoundGoesOn(table: seq<Entry>, max: nat)
    requires WillEnd(table, max) && UniqueIds(table) && Visited(table, ROUND) > 0
    requires forall x :: 1 <= x <= max ==> Taken(table, x)
    ensures WillEnd(Swept(table, ROUND), max) && DeletedCount(Swept(table, ROUND)) < DeletedCount(table)
  {
    HelpfulRound(table, max);
  }

  lemma NoneVisited(table: seq<Entry>, n: nat)
    requires n > 0 && Visited(table, n) == 0
    ensures DeletedCount(table) == 0 && Swept(table, n) == table
  {
    NothingToSweep(table, n);
  }

  // The k-th id tried is the first that is free.
  predicate FirstFree(table: seq<Entry>, start: nat, max: nat, k: int, id: nat) {
    && 1 <= k <= max && id == Tried(start, max, k) && !Taken(table, id)
    && forall m :: 1 <= m < k ==> Taken(table, Tried(start, max, m))
  }

  // The id found is the least free one above the old start, or there is none there and it is the least
  // of all.
  lemma FirstFreeIsLeast(table: seq<Entry>, start: nat, max: nat, k: int, id: nat)
    requires FirstFree(table, start, max, k, id)
    ensures LeastFree(table, start, max, id)
  {
    var from := if start > max then 0 else start;
    forall x | from < x <= max && (x < id || id <= from) ensures Taken(table, x) { assert Tried(start, max, x - from) == x; }
    forall x | 1 <= x <= from && x < id && id <= from ensures Taken(table, x) { assert Tried(start, max, x + max - from) == x; }
    forall i | 0 <= i < |table| ensures table[i].id != id { assert table[i].id in Ids(table); }
  }

  lemma {:induction false} NoneDeleted(table: seq<Entry>)
    requires DeletedCount(table) == 0
    ensures forall i :: 0 <= i < |table| ==> !table[i].deleted
  {
    if table != [] {
      NoneDeleted(table[1..]);
      assert forall i :: 0 < i < |table| ==> table[i] == table[1..][i - 1];
    }
  }

  // A sweep adds nothing and takes only deleted jobs that are neither dirty nor being saved.
  lemma {:induction false} SweptKeeps(table: seq<Entry>, n: nat)
    ensures forall e :: e in Swept(table, n) ==> e in table
    ensures forall e :: e in table && (!e.deleted || e.dirty || e.flushing) ==> e in Swept(table, n)
  {
    if !(table == [] || n == 0) { SweptKeeps(table[1..], if table[0].deleted then n - 1 else n); }
  }

  // Exactly which jobs a sweep of up to n visits takes: a removable one with fewer than n deleted jobs in
  // front of it.
  lemma {:induction false} SweptTakesIff(table: seq<Entry>, n: nat, i: nat)
    requires UniqueIds(table) && i < |table|
    ensures table[i] !in Swept(table, n)
            <==> table[i].deleted && !table[i].dirty && !table[i].flushing && DeletedCount(table[..i]) < n
  {
    if n > 0 {
      var e, rest := table[0], table[1..];
      var m := if e.deleted then n - 1 else n;
      assert forall k :: 0 < k < |table| ==> table[k] == rest[k - 1] && table[k].id != e.id;
      if i == 0 {
        assert table[..0] == [];
        SweptKeeps(rest, m);
      } else {
        SweptTakesIff(rest, m, i - 1);
        assert table[..i][1..] == rest[..i - 1];
      }
    }
  }

  lemma AllTaken(table: seq<Entry>, start: nat, max: nat)
    requires forall k :: 1 <= k <= max ==> Taken(table, Tried(start, max, k))
    ensures forall id :: 1 <= id <= max ==> Taken(table, id)
  {
    forall id | 1 <= id <= max ensures Taken(table, id) { TriedIsEveryId(start, max, id); }
  }

  lemma {:induction false} NothingToSweep(table: seq<Entry>, n: nat)
    requires DeletedCount(table) == 0
    ensures Swept(table, n) == table
  {
    if !(table == [] || n == 0) { NothingToSweep(table[1..], n); }
  }

  // Where the cleanup stands: position i, so many visits made, and what it will have done in the end.
  predicate Sweeping(table: seq<Entry>, i: nat, was: seq<Entry>, n: nat, cleaned: nat, deleted: int)
    requires i <= |table| && cleaned <= n
  {
    && cleaned + DeletedCount(table[i..]) == DeletedCount(was)
    && table[..i] + Swept(table[i..], n - cleaned) == Swept(was, n)
    && deleted == DeletedCount(was) - RemovedCount(was, n) + RemovedCount(table[i..], n - cleaned)
  }

  lemma SweepStart(table: seq<Entry>, n: nat)
    ensures Sweeping(table, 0, table, n, 0, DeletedCount(table))
  {
    assert table[..0] + Swept(table[0..], n) == Swept(table, n) && table[0..] == table;
  }

  lemma SweepStep(table: seq<Entry>, i: nat, was: seq<Entry>, n: nat, cleaned: nat, deleted: int)
    requires i < |table| && cleaned < n && Sweeping(table, i, was, n, cleaned, deleted)
    ensures var e := table[i];
            && (!e.deleted ==> Sweeping(table, i + 1, was, n, cleaned, deleted))
            && (e.deleted && e.Refused() ==> Sweeping(table, i + 1, was, n, cleaned + 1, deleted))
            && (e.deleted && !e.Refused() ==> deleted > 0 && Sweeping(table[..i] + table[i + 1..], i, was, n, cleaned + 1, deleted - 1))
  {
    SweepOne(table, i, n - cleaned);
    SweptCount(was, n);
    hide Swept, DeletedCount, RemovedCount;
  }

  lemma SweepOne(table: seq<Entry>, i: nat, n: nat)
    requires i < |table| && n > 0
    ensures var e := table[i]; var next := table[..i + 1]; var rest := table[i + 1..];
            && DeletedCount(table[i..]) == (if e.deleted then 1 else 0) + DeletedCount(rest)
            && (!e.deleted ==> table[..i] + Swept(table[i..], n) == next + Swept(rest, n) && RemovedCount(table[i..], n) == RemovedCount(rest, n))
            && (e.deleted && e.Refused() ==>
                  table[..i] + Swept(table[i..], n) == next + Swept(rest, n - 1) && RemovedCount(table[i..], n) == RemovedCount(rest, n - 1))
            && (e.deleted && !e.Refused() ==>
                  var cut := table[..i] + rest;
                  && cut[..i] == table[..i] && cut[i..] == rest
                  && table[..i] + Swept(table[i..], n) == cut[..i] + Swept(cut[i..], n - 1)
                  && RemovedCount(table[i..], n) == 1 + RemovedCount(cut[i..], n - 1))
  {
    assert table[i..][0] == table[i] && table[i..][1..] == table[i + 1..];
    var cut := table[..i] + table[i + 1..];
    assert cut[..i] == table[..i] && cut[i..] == table[i + 1..];
  }

  lemma SweepDone(table: seq<Entry>, i: nat, was: seq<Entry>, n: nat, cleaned: nat, deleted: int)
    requires i <= |table| && cleaned <= n && (i == |table| || cleaned == n) && Sweeping(table, i, was, n, cleaned, deleted)
    ensures table == Swept(was, n) && cleaned == Visited(was, n) && deleted == DeletedCount(table)
  {
    SweptCount(was, n);
  }
}
