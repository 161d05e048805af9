/**
 The deferred list as it is linked: nodes with next and prev pointers, the head's prev pointing to the
 tail. Insertion and removal are proved against the list as a sequence.
 */
module DeferredList {
  import opened Sequences
  import opened SchedState
  import opened SchedSteps
  import opened SchedDefer

  class Node {
    const id: JobId
    var time: int
    var prev: Node?
    var next: Node?

    constructor (id: JobId, time: int)
      ensures this.id == id && this.time == time
    {
      this.id, this.time, prev, next := id, time, null, null;
    }
  }

  ghost predicate Different(nodes: seq<Node>) {
    forall i, k :: 0 <= i < k < |nodes| ==> nodes[i] != nodes[k]
  }

  // The pointers of a node say where it stands.
  ghost predicate At(nodes: seq<Node>, i: int)
    requires 0 <= i < |nodes|
    reads nodes`prev, nodes`next
  {
    && nodes[i].next == (if i + 1 < |nodes| then nodes[i + 1] else null)
    && nodes[i].prev == (if i > 0 then nodes[i - 1] else nodes[|nodes| - 1])
  }

  ghost predicate Linked(nodes: seq<Node>)
    reads nodes`prev, nodes`next
  {
    forall i {:trigger At(nodes, i)} :: 0 <= i < |nodes| ==> At(nodes, i)
  }

  class List {
    var head: Node?
    ghost var nodes: seq<Node>

    ghost predicate Valid()
      reads this, nodes`prev, nodes`next
    {
      && Different(nodes) && Linked(nodes)
      && head == if nodes == [] then null else nodes[0]
    }

    constructor ()
      ensures Valid() && nodes == []
    {
      head, nodes := null, [];
    }

    method Prepend(add: Node)
      requires Valid() && add !in nodes
      modifies this, add`prev, add`next, nodes`prev
      ensures Valid() && nodes == [add] + old(nodes)
    {
      ghost var was := nodes;
      assert was != [] ==> At(was, 0) && was[0] in was;
      add.next := head;
      if head != null {
        add.prev := head.prev;
        head.prev := add;
      } else {
        add.prev := add;
      }
      head := add;
      nodes := [add] + nodes;
      forall k | 0 <= k < |nodes| ensures At(nodes, k) {
        if k > 0 { assert old(At(was, k - 1)) && was[k - 1] in was; }
      }
    }

    // Link a node in behind the node at position i.
    method AppendElem(el: Node, add: Node, ghost i: nat)
      requires Valid() && add !in nodes && i < |nodes| && nodes[i] == el
      modifies this`nodes, add`prev, add`next, nodes`prev, nodes`next
      ensures Valid() && nodes == old(nodes)[..i + 1] + [add] + old(nodes)[i + 1..]
    {
      ghost var was := nodes;
      assert At(was, i) && was[0] in was;
      add.next := el.next;
      add.prev := el;
      el.next := add;
      if add.next != null {
        add.next.prev := add;
      } else {
        head.prev := add;
      }
      nodes := nodes[..i + 1] + [add] + nodes[i + 1..];
      forall k | 0 <= k < |nodes| ensures At(nodes, k) {
        if k <= i { assert old(At(was, k)) && was[k] in was; }
        if k > i + 1 { assert old(At(was, k - 1)) && was[k - 1] in was; }
      }
    }

    method Delete(del: Node, ghost i: nat)
      requires Valid() && i < |nodes| && nodes[i] == del
      modifies this, nodes`prev, nodes`next
      ensures Valid() && nodes == old(nodes)[..i] + old(nodes)[i + 1..]
    {
      ghost var was := nodes;
      assert At(was, i) && was[0] in was;
      if del.prev == del {
        head := null;
      } else if del == head {
        del.next.prev := del.prev;
        head := del.next;
      } else {
        del.prev.next := del.next;
        if del.next != null {
          del.next.prev := del.prev;
        } else {
          head.prev := del.prev;
        }
      }
      nodes := nodes[..i] + nodes[i + 1..];
      forall k | 0 <= k < |nodes| ensures At(nodes, k) {
        if k < i { assert old(At(was, k)) && was[k] in was; }
        else { assert old(At(was, k + 1)) && was[k + 1] in was; }
      }
    }

    // The node behind which a new one belongs: the last before the first that is at least as late.
    method LowerBound(like: Node) returns (elt: Node?, ghost n: nat)
      requires Valid()
      ensures n <= |nodes| && elt == if n == 0 then null else nodes[n - 1]
      ensures forall k :: 0 <= k < n ==> nodes[k].time < like.time
      ensures n < |nodes| ==> nodes[n].time >= like.time
    {
      if head == null || head.time - like.time >= 0 {
        return null, 0;
      }
      elt, n := head, 1;
      assert At(nodes, 0);
      while elt.next != null
        invariant 1 <= n <= |nodes| && elt == nodes[n - 1]
        invariant forall k :: 0 <= k < n ==> nodes[k].time < like.time
        decreases |nodes| - n
      {
        assert At(nodes, n - 1);
        if elt.next.time - like.time >= 0 {
          break;
        }
        elt, n := elt.next, n + 1;
      }
      assert At(nodes, n - 1);
    }

    // Put a node where it belongs.
    method InsertInPlace(add: Node) returns (ghost n: nat)
      requires Valid() && add !in nodes
      modifies this, add`prev, add`next, nodes`prev, nodes`next
      ensures Valid() && n <= |old(nodes)| && nodes == old(nodes)[..n] + [add] + old(nodes)[n..]
      ensures forall k :: 0 <= k < n ==> old(nodes)[k].time < add.time
      ensures n < |old(nodes)| ==> old(nodes)[n].time >= add.time
    {
      var elt;
      if head != null {
        elt, n := LowerBound(add);
        if elt != null {
          AppendElem(elt, add, n - 1);
        } else {
          Prepend(add);
        }
      } else {
        n := 0;
        head, nodes := add, [add];
        add.prev, add.next := add, null;
        assert At(nodes, 0);
      }
    }

    // As a sequence of jobs the list grows as the table's times say.
    method Insert(add: Node, ghost jobs: map<JobId, Job>)
      requires Valid() && add !in nodes
      requires Timed(add, jobs) && forall k :: 0 <= k < |nodes| ==> Timed(nodes[k], jobs)
      modifies this, add`prev, add`next, nodes`prev, nodes`next
      ensures Valid() && add in nodes && Ids(nodes) == InsertInOrder(Ids(old(nodes)), jobs, add.id)
    {
      ghost var was := nodes;
      ghost var n := InsertInPlace(add);
      assert nodes[n] == add;
      InsertAt(Ids(was), jobs, add.id, n);
      IdsInsert(was, add, n);
    }

    // Take a node out.
    method Remove(del: Node, ghost i: nat)
      requires Valid() && i < |nodes| && nodes[i] == del && Distinct(Ids(nodes))
      modifies this, nodes`prev, nodes`next
      ensures Valid() && nodes == old(nodes)[..i] + old(nodes)[i + 1..] && Ids(nodes) == Without(Ids(old(nodes)), del.id)
    {
      WithoutAt(Ids(nodes), i);
      Delete(del, i);
    }

    // Clear the time of the first job and unlink it; the caller goes on with what came next.
    method ReleaseFirst(j: Node) returns (next: Node?)
      requires Valid() && nodes != [] && j == head
      modifies this, j`time, nodes`prev, nodes`next
      ensures Valid() && nodes == old(nodes)[1..] && j.time == 0 && next == head
    {
      assert At(nodes, 0);
      next := j.next;
      j.time := 0;
      Delete(j, 0);
    }

    // Release every job whose time has come: walk from the front up to the first that is not due. In a
    // list in the order of times these are exactly the jobs that are due.
    method ReleaseDue(now: int, ghost times: seq<int>) returns (ghost n: nat)
      requires Valid() && |times| == |nodes| && forall k :: 0 <= k < |nodes| ==> nodes[k].time == times[k]
      requires forall i, k :: 0 <= i < k < |times| ==> times[i] <= times[k]
      modifies this, nodes
      ensures Valid() && n <= |times| && nodes == old(nodes)[n..]
      ensures forall k :: 0 <= k < |times| ==> (k < n <==> times[k] <= now)
      ensures forall k :: 0 <= k < |times| ==> old(nodes)[k].time == if k < n then 0 else times[k]
    {
      ghost var was := nodes;
      n := 0;
      var j := head;
      while j != null
        invariant Valid() && n <= |was| && nodes == was[n..] && j == head
        invariant forall k :: 0 <= k < n ==> times[k] <= now
        invariant forall k :: 0 <= k < |was| ==> was[k].time == if k < n then 0 else times[k]
        decreases |was| - n
      {
        assert j == was[n];
        if now < j.time {
          break;
        }
        j := ReleaseFirst(j);
        n := n + 1;
      }
    }
  }

  // The table has the node's job, with the node's time.
  ghost predicate Timed(n: Node, jobs: map<JobId, Job>)
    reads n
  {
    n.id in jobs && jobs[n.id].deferTime == n.time
  }

  ghost function Ids(nodes: seq<Node>): (ids: seq<JobId>)
    ensures |ids| == |nodes| && forall i :: 0 <= i < |nodes| ==> ids[i] == nodes[i].id
  {
    seq(|nodes|, i requires 0 <= i < |nodes| => nodes[i].id)
  }

  lemma IdsInsert(nodes: seq<Node>, add: Node, n: nat)
    requires n <= |nodes|
    ensures Ids(nodes[..n] + [add] + nodes[n..]) == Ids(nodes)[..n] + [add.id] + Ids(nodes)[n..]
  {
  }

  // In front of the first job that is at least as late.
  lemma {:induction false} InsertAt(list: seq<JobId>, jobs: map<JobId, Job>, id: JobId, n: nat)
    requires id in jobs && (forall k :: 0 <= k < |list| ==> list[k] in jobs) && n <= |list|
    requires forall k :: 0 <= k < n ==> jobs[list[k]].deferTime < jobs[id].deferTime
    requires n < |list| ==> jobs[list[n]].deferTime >= jobs[id].deferTime
    ensures InsertInOrder(list, jobs, id) == list[..n] + [id] + list[n..]
  {
    if n == 0 {
      assert list[..0] + [id] + list[0..] == [id] + list;
    } else {
      InsertAt(list[1..], jobs, id, n - 1);
      assert list[1..][n - 1..] == list[n..] && [list[0]] + list[1..][..n - 1] == list[..n];
    }
  }

  lemma {:induction false} WithoutAt(list: seq<JobId>, i: nat)
    requires Distinct(list) && i < |list|
    ensures Without(list, list[i]) == list[..i] + list[i + 1..]
  {
    if i == 0 {
      WithoutAbsent(list[1..], list[0]);
    } else {
      WithoutAt(list[1..], i - 1);
      assert [list[0]] + (list[1..][..i - 1] + list[1..][i..]) == list[..i] + list[i + 1..];
    }
  }
}
