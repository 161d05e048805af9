/**
 The agent's list of jobs, changed in place by the messages it gets and the processes that end. Each
 method does to the list and to the stream of messages what the matching step of the protocol does.
 */
module AgentSide {
  import opened Protocol

  class JobList {
    // The list, newest first; whether the daemon is connected; whether a recon is being answered; and
    // all messages written to the daemon so far.
    var entries: seq<Entry>
    var connected: bool
    var inRecon: bool
    var sent: seq<Up>

    // The list as the agent's part of a system whose connection works in both directions.
    ghost predicate Agrees(s: System)
      reads this
    {
      s.entries == entries && s.agentUp == connected && s.inRecon == inRecon && s.daemonUp && s.up == sent
    }

    // start_command: a process that was spawned is listed and reported, a failure is reported as an end.
    method StartCommand(job: JobId, spawned: bool, ghost s: System)
      requires Agrees(s) && connected
      modifies this
      ensures Agrees(AgentReceives(s, StartJob(job), spawned))
    {
      if spawned {
        entries := [Entry(job, Live)] + entries;
        sent := sent + [JobStarted(job)];
      } else {
        sent := sent + [JobCompleted(job, false)];
      }
    }

    // send_completion: an end that cannot be reported now is kept in the list.
    method SendEnd(i: nat, ok: bool, ghost s: System)
      requires Agrees(s) && i < |entries|
      modifies this
      ensures Agrees(SendCompletion(s, i, ok))
    {
      if !connected || inRecon {
        entries := entries[i := entries[i].(proc := Done(ok))];
        return;
      }
      sent := sent + [JobCompleted(entries[i].job, ok)];
      entries := entries[..i] + entries[i + 1..];
    }

    // recon_command: describe every listed job.
    method ReconCommand(ghost s: System)
      requires Agrees(s) && connected
      modifies this
      ensures Agrees(AgentReceives(s, ReconReq, false))
    {
      var items: seq<Entry> := [];
      for i := 0 to |entries|
        invariant entries == old(entries) && sent == old(sent) && connected && inRecon == old(inRecon)
        invariant items == entries[..i]
      {
        items := items + [entries[i]];
      }
      assert items == entries;
      sent := sent + [Recon(items)];
      inRecon := true;
    }

    // recon_complete: what had ended is forgotten.
    method ReconComplete(ghost s: System)
      requires Agrees(s) && connected
      modifies this
      ensures Agrees(AgentReceives(s, Down.ReconComplete, false))
    {
      var i := 0;
      assert [] + DropDone(entries[0..]) == DropDone(entries);
      while i < |entries|
        invariant 0 <= i <= |entries|
        invariant sent == old(sent) && connected && inRecon == old(inRecon)
        invariant entries[..i] + DropDone(entries[i..]) == DropDone(old(entries))
        decreases |entries| - i
      {
        DropStep(entries, i);
        if entries[i].proc.Done? {
          entries := entries[..i] + entries[i + 1..];
        } else {
          i := i + 1;
        }
      }
      inRecon := false;
    }
  }

  // One entry further: it is dropped or kept.
  lemma DropStep(es: seq<Entry>, i: nat)
    requires i < |es|
    ensures es[i].proc.Done? ==>
              var cut := es[..i] + es[i + 1..]; es[..i] + DropDone(es[i..]) == cut[..i] + DropDone(cut[i..])
    ensures !es[i].proc.Done? ==> es[..i] + DropDone(es[i..]) == es[..i + 1] + DropDone(es[i + 1..])
  {
    assert es[i..][0] == es[i] && es[i..][1..] == es[i + 1..];
    var cut := es[..i] + es[i + 1..];
    assert cut[..i] == es[..i] && cut[i..] == es[i + 1..];
  }
}
