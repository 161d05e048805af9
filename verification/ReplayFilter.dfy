/**
 Which journaled modifications of a job recovery applies.

 A modification is journaled with the revision the job had after it. Loading a job from its file
 stores the saved revision and then raises it by one. During recovery a modification whose recorded
 revision is not above the job's current one is skipped; any other goes through the command handler,
 which may still refuse it and otherwise raises the revision by one. The other replayed commands on a
 job, tags set or deleted, starts, completions and deletions, are not filtered, and each that is not
 refused raises the revision as well.
 */
module ReplayFilter {

  datatype Rec = Mod(revision: nat, refused: bool) | Other(refused: bool)

  function LoadedRevision(saved: nat): nat {
    saved + 1
  }

  predicate Skipped(revision: nat, r: Rec) {
    r.Mod? && revision >= r.revision
  }

  function After(revision: nat, r: Rec): nat {
    if Skipped(revision, r) || r.refused then revision else revision + 1
  }

  // The modifications that get past the filter, in order.
  function Passed(revision: nat, records: seq<Rec>): seq<Rec>
    decreases records
  {
    if records == [] then []
    else (if records[0].Other? || Skipped(revision, records[0]) then [] else [records[0]])
         + Passed(After(revision, records[0]), records[1..])
  }

  // The revision a replay ends with.
  function RevisionAfter(revision: nat, records: seq<Rec>): nat
    decreases records
  {
    if records == [] then revision else RevisionAfter(After(revision, records[0]), records[1..])
  }

  // The loop over one job's records.
  method Replay(saved: nat, records: seq<Rec>) returns (passed: seq<Rec>, revision: nat)
    ensures passed == Passed(LoadedRevision(saved), records)
    ensures revision == RevisionAfter(LoadedRevision(saved), records)
  {
    revision := LoadedRevision(saved);
    passed := [];
    var i := 0;
    hide Replayed, Passed, RevisionAfter;
    ReplayStarts(saved, records);
    while i < |records|
      invariant 0 <= i <= |records|
      invariant Replayed(saved, records, i, passed, revision)
    {
      ReplayStep(saved, records, i, passed, revision);
      var r, skip := records[i], records[i].Mod? && revision >= records[i].revision;
      if r.Mod? && !skip {
        passed := passed + [r];
      }
      if !skip && !r.refused {
        revision := revision + 1;
      }
      i := i + 1;
    }
    ReplayEnds(saved, records, passed, revision);
  }

  // What has passed so far, with what will pass from here, is what passes.
  ghost predicate Replayed(saved: nat, records: seq<Rec>, i: nat, passed: seq<Rec>, revision: nat) {
    && i <= |records|
    && Passed(LoadedRevision(saved), records) == passed + Passed(revision, records[i..])
    && RevisionAfter(LoadedRevision(saved), records) == RevisionAfter(revision, records[i..])
  }

  lemma ReplayStarts(saved: nat, records: seq<Rec>)
    ensures Replayed(saved, records, 0, [], LoadedRevision(saved))
  {
    hide Passed, RevisionAfter;
    assert records[0..] == records;
  }

  lemma ReplayEnds(saved: nat, records: seq<Rec>, passed: seq<Rec>, revision: nat)
    requires Replayed(saved, records, |records|, passed, revision)
    ensures passed == Passed(LoadedRevision(saved), records) && revision == RevisionAfter(LoadedRevision(saved), records)
  {
    assert records[|records|..] == [];
    assert Passed(revision, []) == [] && RevisionAfter(revision, []) == revision;
    hide Passed, RevisionAfter;
    assert passed + [] == passed;
  }

  function PassedOne(revision: nat, r: Rec): seq<Rec> {
    if r.Other? || Skipped(revision, r) then [] else [r]
  }

  lemma PassedFirst(revision: nat, records: seq<Rec>, i: nat)
    requires i < |records|
    ensures Passed(revision, records[i..]) == PassedOne(revision, records[i]) + Passed(After(revision, records[i]), records[i + 1..])
    ensures RevisionAfter(revision, records[i..]) == RevisionAfter(After(revision, records[i]), records[i + 1..])
  {
    assert records[i..][0] == records[i] && records[i..][1..] == records[i + 1..];
  }

  lemma Associate(a: seq<Rec>, b: seq<Rec>, c: seq<Rec>)
    ensures a + (b + c) == a + b + c && a + [] == a
  {
  }

  lemma ReplayStep(saved: nat, records: seq<Rec>, i: nat, passed: seq<Rec>, revision: nat)
    requires i < |records| && Replayed(saved, records, i, passed, revision)
    ensures var r := records[i];
            Replayed(saved, records, i + 1, if r.Other? || Skipped(revision, r) then passed else passed + [r], After(revision, r))
  {
    PassedFirst(revision, records, i);
    hide Passed, RevisionAfter;
    Associate(passed, PassedOne(revision, records[i]), Passed(After(revision, records[i]), records[i + 1..]));
  }

  // -------------------------------------------------------------------------
  // Every journal
  // -------------------------------------------------------------------------

  lemma {:induction false} PassedSplits(revision: nat, a: seq<Rec>, b: seq<Rec>)
    ensures Passed(revision, a + b) == Passed(revision, a) + Passed(RevisionAfter(revision, a), b)
    decreases a
  {
    if a == [] {
      assert a + b == b && Passed(revision, a) == [];
    } else {
      var first, next := PassedOne(revision, a[0]), After(revision, a[0]);
      assert (a + b)[0] == a[0] && (a + b)[1..] == a[1..] + b;
      assert Passed(revision, a + b) == first + Passed(next, a[1..] + b) && Passed(revision, a) == first + Passed(next, a[1..]);
      PassedSplits(next, a[1..], b);
      hide Passed;
      Associate(first, Passed(next, a[1..]), Passed(RevisionAfter(next, a[1..]), b));
    }
  }

  function OthersMade(records: seq<Rec>): nat {
    if records == [] then 0 else (if records[0].Other? && !records[0].refused then 1 else 0) + OthersMade(records[1..])
  }

  function Made(mods: seq<Rec>): nat {
    if mods == [] then 0 else (if mods[0].refused then 0 else 1) + Made(mods[1..])
  }

  // The commands that take effect: the unfiltered ones that are not refused, and the modifications that
  // pass and are not refused.
  function Raises(revision: nat, records: seq<Rec>): nat {
    OthersMade(records) + Made(Passed(revision, records))
  }

  lemma {:induction false} RaisesAreMade(revision: nat, records: seq<Rec>)
    ensures RevisionAfter(revision, records) == revision + Raises(revision, records)
    decreases records
  {
    if records != [] {
      RaisesAreMade(After(revision, records[0]), records[1..]);
      var rest := Passed(After(revision, records[0]), records[1..]);
      if !(records[0].Other? || Skipped(revision, records[0])) { assert ([records[0]] + rest)[1..] == rest; }
      else { assert [] + rest == rest; }
    }
  }

  // A modification passes if and only if its revision exceeds the saved one by more than one and the
  // number of commands that took effect before it.
  lemma PassesIff(saved: nat, records: seq<Rec>, i: nat)
    requires i < |records| && records[i].Mod?
    ensures var before := records[..i];
            Passed(LoadedRevision(saved), records[..i + 1])
            == Passed(LoadedRevision(saved), before)
               + if records[i].revision > saved + 1 + Raises(LoadedRevision(saved), before) then [records[i]] else []
  {
    var before := records[..i];
    PassedSplits(saved + 1, before, [records[i]]);
    RaisesAreMade(saved + 1, before);
    assert records[..i + 1] == before + [records[i]];
    assert [records[i]][1..] == [];
  }

  // -------------------------------------------------------------------------
  // Journals of a job whose file is older than all of them
  // -------------------------------------------------------------------------

  // Every command raised the revision when it was made, others may have raised it unrecorded, and a
  // request refused at the time carries revision 0.
  predicate Follows(revision: nat, records: seq<Rec>)
    decreases records
  {
    records == [] ||
    match records[0]
    case Other(_) => Follows(revision + 1, records[1..])
    case Mod(recorded, _) =>
      if recorded == 0 then Follows(revision, records[1..]) else recorded > revision && Follows(recorded, records[1..])
  }

  // What recovery owes: the modifications that were made.
  function Owed(records: seq<Rec>): seq<Rec> {
    if records == [] then []
    else (if records[0].Mod? && records[0].revision > 0 then [records[0]] else []) + Owed(records[1..])
  }

  // The position of the first of them.
  function FirstMod(records: seq<Rec>): (m: nat)
    ensures m <= |records| && (m < |records| ==> records[m].Mod? && records[m].revision > 0)
  {
    if records == [] || (records[0].Mod? && records[0].revision > 0) then 0 else 1 + FirstMod(records[1..])
  }

  // Its revision is the one that loading and the commands replayed before it already reach.
  predicate FirstIsReached(saved: nat, records: seq<Rec>) {
    var m := FirstMod(records);
    m < |records| && records[m].revision == saved + 1 + OthersMade(records[..m])
  }

  lemma {:induction false} FollowsLower(revision: nat, lower: nat, records: seq<Rec>)
    requires Follows(revision, records) && lower <= revision
    ensures Follows(lower, records)
    decreases records
  {
    if records != [] && (records[0].Other? || records[0].revision == 0) {
      FollowsLower(if records[0].Other? then revision + 1 else revision, if records[0].Other? then lower + 1 else lower, records[1..]);
    }
  }

  // Once the revision of the replay is no further than it was at the time, everything passes.
  lemma {:induction false} AllOwedPass(revision: nat, records: seq<Rec>)
    requires Follows(revision, records)
    ensures Passed(revision, records) == Owed(records)
    decreases records
  {
    if records != [] {
      var r, next := records[0], After(revision, records[0]);
      if r.Other? { FollowsLower(revision + 1, next, records[1..]); }
      else if r.revision > 0 { FollowsLower(r.revision, next, records[1..]); }
      AllOwedPass(next, records[1..]);
    }
  }

  // One step ahead, only the first modification is at risk, and only if it carries the revision reached.
  lemma {:induction false} OneAhead(saved: nat, records: seq<Rec>)
    requires Follows(saved, records)
    ensures FirstIsReached(saved, records) ==> Owed(records) != []
    ensures Passed(saved + 1, records) == if FirstIsReached(saved, records) then Owed(records)[1..] else Owed(records)
    decreases records
  {
    if records != [] {
      var r, rest := records[0], records[1..];
      if r.Mod? && r.revision > 0 {
        assert records[..0] == [] && FirstMod(records) == 0;
        if r.revision == saved + 1 {
          AllOwedPass(saved + 1, rest);
          assert Owed(records)[1..] == Owed(rest);
        } else {
          FollowsLower(r.revision, After(saved + 1, r), rest);
          AllOwedPass(After(saved + 1, r), rest);
        }
      } else {
        FirstAfter(saved, records);
        if r.Other? && r.refused {
          AllOwedPass(saved + 1, rest);
          FirstIsAbove(saved + 1, rest);
        } else {
          OneAhead(if r.Other? then saved + 1 else saved, rest);
        }
      }
    }
  }

  // A record that is no modification moves the test on to the rest.
  lemma FirstAfter(saved: nat, records: seq<Rec>)
    requires records != [] && !(records[0].Mod? && records[0].revision > 0)
    ensures FirstIsReached(saved, records)
            <==> FirstIsReached(if records[0].Other? && !records[0].refused then saved + 1 else saved, records[1..])
    ensures Owed(records) == Owed(records[1..])
  {
    var m := FirstMod(records[1..]);
    OthersBehind(records, m);
    assert m < |records| - 1 ==> records[m + 1] == records[1..][m];
    assert [] + Owed(records[1..]) == Owed(records[1..]);
    hide OthersMade;
  }

  lemma OthersBehind(records: seq<Rec>, m: nat)
    requires m < |records|
    ensures OthersMade(records[..m + 1]) == (if records[0].Other? && !records[0].refused then 1 else 0) + OthersMade(records[1..][..m])
  {
    assert records[..m + 1][1..] == records[1..][..m];
  }

  lemma {:induction false} FirstIsAbove(revision: nat, records: seq<Rec>)
    requires Follows(revision, records)
    ensures var m := FirstMod(records); m < |records| ==> records[m].revision > revision + OthersMade(records[..m])
    decreases records
  {
    if records != [] && !(records[0].Mod? && records[0].revision > 0) {
      var m := FirstMod(records[1..]);
      FirstIsAbove(if records[0].Other? then revision + 1 else revision, records[1..]);
      assert records[..m + 1][1..] == records[1..][..m];
      assert m < |records| - 1 ==> records[m + 1] == records[1..][m];
    }
  }

  // When the file is older than every record, recovery drops nothing it owes, or exactly the first
  // modification: that one is dropped if and only if its revision is the one that loading and the
  // commands replayed before it already reach.
  lemma OnlyFirstModIsDroppedIff(saved: nat, records: seq<Rec>)
    requires Follows(saved, records)
    ensures var passed := Passed(LoadedRevision(saved), records);
            && (passed == Owed(records) <==> !FirstIsReached(saved, records))
            && (FirstIsReached(saved, records) ==> Owed(records) != [] && passed == Owed(records)[1..])
  {
    OneAhead(saved, records);
    if FirstIsReached(saved, records) { assert |Owed(records)[1..]| < |Owed(records)|; }
  }

  // A tag set and then a modification: the modification is dropped although its revision is not the
  // one right after the saved one.
  lemma TagThenModIsLost(saved: nat)
    ensures var records := [Other(false), Mod(saved + 2, false)];
            Follows(saved, records) && Owed(records) == [records[1]] && Passed(LoadedRevision(saved), records) == []
  {
    var records := [Other(false), Mod(saved + 2, false)];
    assert records[1..] == [records[1]] && [records[1]][1..] == [];
    assert Owed([records[1]]) == [records[1]] && Passed(saved + 2, [records[1]]) == [];
  }

  // -------------------------------------------------------------------------
  // Journals that reach back behind the file
  // -------------------------------------------------------------------------

  // What recovery owes: the modifications above the saved revision.
  function OwedAbove(saved: nat, records: seq<Rec>): seq<Rec> {
    if records == [] then []
    else (if records[0].Mod? && records[0].revision > saved then [records[0]] else []) + OwedAbove(saved, records[1..])
  }

  // The position of the first of them.
  function FirstAbove(saved: nat, records: seq<Rec>): (m: nat)
    ensures m <= |records| && (m < |records| ==> records[m].Mod? && records[m].revision > saved)
  {
    if records == [] || (records[0].Mod? && records[0].revision > saved) then 0 else 1 + FirstAbove(saved, records[1..])
  }

  // It is ahead of what loading and the unfiltered commands before it reach.
  predicate FirstIsAhead(saved: nat, records: seq<Rec>) {
    FirstAhead(saved, saved + 1, records)
  }

  predicate FirstAhead(saved: nat, revision: nat, records: seq<Rec>) {
    var m := FirstAbove(saved, records);
    m < |records| ==> records[m].revision > revision + OthersMade(records[..m])
  }

  // Behind a modification above the saved revision all are above it.
  lemma {:induction false} OwedIsAbove(revision: nat, saved: nat, records: seq<Rec>)
    requires Follows(revision, records) && revision > saved
    ensures OwedAbove(saved, records) == Owed(records)
    decreases records
  {
    if records != [] {
      var r := records[0];
      OwedIsAbove(if r.Other? then revision + 1 else if r.revision == 0 then revision else r.revision, saved, records[1..]);
    }
  }

  // One modification that passes lets all later ones pass.
  lemma RestPasses(revision: nat, r: Rec, rest: seq<Rec>, saved: nat)
    requires r.Mod? && r.revision > revision && r.revision > saved && Follows(r.revision, rest)
    ensures Passed(After(revision, r), rest) == OwedAbove(saved, rest)
  {
    FollowsLower(r.revision, After(revision, r), rest);
    AllOwedPass(After(revision, r), rest);
    OwedIsAbove(r.revision, saved, rest);
  }

  predicate EndOf(p: seq<Rec>, all: seq<Rec>) {
    |p| <= |all| && p == all[|all| - |p|..]
  }

  lemma EndOfLonger(p: seq<Rec>, r: Rec, all: seq<Rec>)
    requires EndOf(p, all)
    ensures EndOf(p, [r] + all) && p != [r] + all
  {
    assert ([r] + all)[1 + |all| - |p|..] == all[|all| - |p|..];
    assert |p| < |[r] + all|;
  }

  lemma EndOfSelf(p: seq<Rec>)
    ensures EndOf(p, p)
  {
  }

  // A record that is no modification above the saved revision moves all on to the rest.
  lemma NothingOwedHere(saved: nat, revision: nat, records: seq<Rec>)
    requires records != [] && !(records[0].Mod? && records[0].revision > saved) && revision > saved
    ensures OwedAbove(saved, records) == OwedAbove(saved, records[1..])
    ensures Passed(revision, records) == Passed(After(revision, records[0]), records[1..])
    ensures FirstAhead(saved, revision, records) <==> FirstAhead(saved, After(revision, records[0]), records[1..])
  {
    var m := FirstAbove(saved, records[1..]);
    OthersBehind(records, m);
    assert m < |records| - 1 ==> records[m + 1] == records[1..][m];
    hide OthersMade;
    assert [] + OwedAbove(saved, records[1..]) == OwedAbove(saved, records[1..]);
    assert [] + Passed(After(revision, records[0]), records[1..]) == Passed(After(revision, records[0]), records[1..]);
  }

  lemma OwedHere(saved: nat, revision: nat, records: seq<Rec>)
    requires records != [] && records[0].Mod? && records[0].revision > saved
    ensures OwedAbove(saved, records) == [records[0]] + OwedAbove(saved, records[1..])
    ensures Passed(revision, records) == (if records[0].revision > revision then [records[0]] else []) + Passed(After(revision, records[0]), records[1..])
    ensures FirstAhead(saved, revision, records) <==> records[0].revision > revision
  {
    assert FirstAbove(saved, records) == 0 && records[..0] == [] && OthersMade([]) == 0;
  }

  lemma {:induction false} AheadIff(base: nat, saved: nat, revision: nat, records: seq<Rec>)
    requires Follows(base, records) && revision > saved
    ensures Passed(revision, records) == OwedAbove(saved, records) <==> FirstAhead(saved, revision, records)
    ensures EndOf(Passed(revision, records), OwedAbove(saved, records))
    decreases records
  {
    if records != [] {
      var r, rest := records[0], records[1..];
      var base' := if r.Other? then base + 1 else if r.revision == 0 then base else r.revision;
      assert Follows(base', rest);
      hide Follows, EndOf, FirstAhead, Passed, OwedAbove;
      if !(r.Mod? && r.revision > saved) {
        NothingOwedHere(saved, revision, records);
        AheadIff(base', saved, After(revision, r), rest);
      } else {
        OwedHere(saved, revision, records);
        if r.revision > revision {
          RestPasses(revision, r, rest, saved);
          EndOfSelf(Passed(revision, records));
        } else {
          AheadIff(base', saved, revision, rest);
          EndOfLonger(Passed(revision, rest), r, OwedAbove(saved, rest));
          assert [] + Passed(revision, rest) == Passed(revision, rest);
        }
      }
    } else {
      assert Passed(revision, []) == [] && OwedAbove(saved, []) == [];
    }
  }

  // For every journal, however far it reaches back behind the file: recovery drops nothing it owes if and
  // only if the first modification above the saved revision is ahead of what loading and the unfiltered
  // commands before it reach. What it drops otherwise is a prefix of what it owes.
  lemma NothingAboveIsDroppedIff(base: nat, saved: nat, records: seq<Rec>)
    requires Follows(base, records)
    ensures var passed, owed := Passed(LoadedRevision(saved), records), OwedAbove(saved, records);
            && (passed == owed <==> FirstIsAhead(saved, records))
            && EndOf(passed, owed)
  {
    AheadIff(base, saved, saved + 1, records);
  }

  // -------------------------------------------------------------------------
  // Journals of modifications only
  // -------------------------------------------------------------------------

  predicate Increasing(records: seq<Rec>) {
    && (forall i :: 0 <= i < |records| ==> records[i].Mod?)
    && (forall i, j :: 0 <= i < j < |records| ==> records[i].revision < records[j].revision)
  }

  // The number of leading records at or below a revision.
  function Covered(revision: nat, records: seq<Rec>): (n: nat)
    ensures n <= |records|
  {
    if records == [] || !records[0].Mod? || records[0].revision > revision then 0 else 1 + Covered(revision, records[1..])
  }

  // With increasing revisions the filter drops exactly the covered prefix; everything behind it
  // passes once, in order, whatever the handler refuses on the way.
  lemma {:induction false} FilterDropsPrefix(revision: nat, records: seq<Rec>)
    requires Increasing(records)
    ensures Passed(revision, records) == records[Covered(revision, records)..]
    ensures forall i :: 0 <= i < |records| ==> (i < Covered(revision, records) <==> records[i].revision <= revision)
  {
    if records != [] {
      if records[0].revision > revision {
        AllPass(revision, records);
      } else {
        FilterDropsPrefix(revision, records[1..]);
        assert forall i :: 1 <= i < |records| ==> records[i] == records[1..][i - 1];
      }
    }
  }

  lemma {:induction false} AllPass(revision: nat, records: seq<Rec>)
    requires Increasing(records) && (records != [] ==> records[0].revision > revision)
    ensures Passed(revision, records) == records
    decreases records
  {
    if records != [] {
      if |records| > 1 { assert records[1..][0] == records[1]; }
      AllPass(After(revision, records[0]), records[1..]);
      assert records == [records[0]] + records[1..];
    }
  }

  // The file holds everything up to the saved revision, so every modification above it is owed, also
  // when the journal reaches back behind the file. All of them pass if and only if none carries the
  // revision right after the saved one.
  lemma NothingOwedIsDroppedIff(saved: nat, records: seq<Rec>)
    requires Increasing(records)
    ensures Passed(LoadedRevision(saved), records) == records[Covered(saved, records)..]
            <==> forall i :: 0 <= i < |records| ==> records[i].revision != saved + 1
  {
    FilterDropsPrefix(saved + 1, records);
    CoveredNext(saved, records);
    var owed, kept := Covered(saved, records), Covered(saved + 1, records);
    assert |records[owed..]| == |records| - owed && |records[kept..]| == |records| - kept;
  }

  // Raising the revision by one covers one record more exactly when one carries that revision.
  lemma {:induction false} CoveredNext(saved: nat, records: seq<Rec>)
    requires Increasing(records)
    ensures Covered(saved, records) == Covered(saved + 1, records)
            <==> forall i :: 0 <= i < |records| ==> records[i].revision != saved + 1
  {
    if records != [] {
      if records[0].revision <= saved {
        CoveredNext(saved, records[1..]);
        assert forall i :: 1 <= i < |records| ==> records[i] == records[1..][i - 1];
      } else if records[0].revision == saved + 1 {
        assert Covered(saved + 1, records) > 0;
      }
    }
  }

  // The first modification made after a save is lost when the daemon stops before the next save.
  lemma FirstModAfterSaveIsLost(saved: nat)
    ensures var records := [Mod(saved + 1, false)];
            Increasing(records) && Covered(saved, records) == 0 && Passed(LoadedRevision(saved), records) == []
  {
    var records := [Mod(saved + 1, false)];
    assert records[1..] == [];
  }

  // A request that was refused when it was made is journaled with revision 0 and never passes.
  lemma {:induction false} RefusedRequestNeverPasses(revision: nat, records: seq<Rec>)
    ensures forall m :: m in Passed(revision, records) ==> m.Mod? && m.revision > 0
    decreases records
  {
    if records != [] {
      RefusedRequestNeverPasses(After(revision, records[0]), records[1..]);
    }
  }
}
