/**
 Queue access rules. Rules allow or deny permissions on the queues whose name they match, to groups.
 However the rules are ordered in the configuration, a group ends up with what is allowed to it minus
 what is denied. A permission mask is modelled as the set of its bits.
 */
module QueueAcl {

  type Bit = nat
  type Gid = nat

  datatype Acl = Acl(expr: string, allow: bool, gids: seq<Gid>, permissions: set<Bit>)

  // -------------------------------------------------------------------------
  // What the rules mean
  // -------------------------------------------------------------------------

  // The groups of a rule end at the first zero.
  function Groups(gids: seq<Gid>): seq<Gid> {
    if gids == [] || gids[0] == 0 then [] else [gids[0]] + Groups(gids[1..])
  }

  // A group is named, and no zero stands at or before its place.
  predicate Listed(gids: seq<Gid>, g: Gid) {
    exists i :: 0 <= i < |gids| && gids[i] == g && forall k :: 0 <= k <= i ==> gids[k] != 0
  }

  lemma {:induction false} GroupsAreListed(gids: seq<Gid>, g: Gid)
    ensures g in Groups(gids) <==> Listed(gids, g)
  {
    if gids != [] && gids[0] != 0 {
      GroupsAreListed(gids[1..], g);
      if i :| 0 <= i < |gids| && gids[i] == g && forall k :: 0 <= k <= i ==> gids[k] != 0 {
        if i > 0 { assert gids[1..][i - 1] == g && forall k :: 0 <= k <= i - 1 ==> gids[1..][k] == gids[k + 1]; }
      }
      if i :| 0 <= i < |gids[1..]| && gids[1..][i] == g && forall k :: 0 <= k <= i ==> gids[1..][k] != 0 {
        assert gids[i + 1] == g && forall k :: 0 < k <= i + 1 ==> gids[k] == gids[1..][k - 1];
      }
    }
  }

  // A rule speaks of a permission of a group on a queue. The name match is a parameter.
  predicate Speaks(r: Acl, fnmatch: (string, string) -> bool, queue: string, g: Gid, p: Bit) {
    fnmatch(r.expr, queue) && Listed(r.gids, g) && p in r.permissions
  }

  predicate SomeRule(rules: seq<Acl>, allow: bool, fnmatch: (string, string) -> bool, queue: string, g: Gid, p: Bit) {
    exists i :: 0 <= i < |rules| && rules[i].allow == allow && Speaks(rules[i], fnmatch, queue, g, p)
  }

  // -------------------------------------------------------------------------
  // Folding the rules into a queue's table of permissions
  // -------------------------------------------------------------------------

  function MaskOf(perms: map<Gid, set<Bit>>, g: Gid): set<Bit> {
    if g in perms then perms[g] else {}
  }

  // One rule and one of its groups: a group that is not listed is listed only by a rule that allows.
  function FoldGid(perms: map<Gid, set<Bit>>, r: Acl, g: Gid): map<Gid, set<Bit>> {
    if g !in perms && !r.allow then perms
    else perms[g := if r.allow then MaskOf(perms, g) + r.permissions else MaskOf(perms, g) - r.permissions]
  }

  function FoldGids(perms: map<Gid, set<Bit>>, r: Acl, gids: seq<Gid>): map<Gid, set<Bit>>
    decreases gids
  {
    if gids == [] then perms else FoldGids(FoldGid(perms, r, gids[0]), r, gids[1..])
  }

  function Fold(perms: map<Gid, set<Bit>>, rules: seq<Acl>, fnmatch: (string, string) -> bool, queue: string): map<Gid, set<Bit>>
    decreases rules
  {
    if rules == [] then perms
    else
      var r := rules[0];
      Fold(if fnmatch(r.expr, queue) then FoldGids(perms, r, Groups(r.gids)) else perms, rules[1..], fnmatch, queue)
  }

  // One rule on one queue: the inner loop of addQueue.
  method ApplyRule(before: map<Gid, set<Bit>>, acl: Acl) returns (perms: map<Gid, set<Bit>>)
    ensures perms == FoldGids(before, acl, Groups(acl.gids))
  {
    perms := before;
    var i := 0;
    while i < |acl.gids| && acl.gids[i] != 0
      invariant 0 <= i <= |acl.gids|
      invariant FoldGids(perms, acl, Groups(acl.gids[i..])) == FoldGids(before, acl, Groups(acl.gids))
    {
      var gid := acl.gids[i];
      assert acl.gids[i..][0] == gid && acl.gids[i..][1..] == acl.gids[i + 1..];
      assert Groups(acl.gids[i..]) == [gid] + Groups(acl.gids[i + 1..]);
      ghost var was := perms;
      i := i + 1;
      if gid !in perms {
        if !acl.allow {
          continue;
        }
        perms := perms[gid := {}];
      }
      if acl.allow {
        perms := perms[gid := perms[gid] + acl.permissions];
      } else {
        perms := perms[gid := perms[gid] - acl.permissions];
      }
      assert perms == FoldGid(was, acl, gid);
    }
  }

  // All rules on one queue.
  method AddQueuePermissions(rules: seq<Acl>, fnmatch: (string, string) -> bool, queue: string) returns (perms: map<Gid, set<Bit>>)
    ensures perms == Fold(map[], rules, fnmatch, queue)
  {
    perms := map[];
    for n := 0 to |rules|
      invariant Fold(perms, rules[n..], fnmatch, queue) == Fold(map[], rules, fnmatch, queue)
    {
      assert rules[n..][0] == rules[n] && rules[n..][1..] == rules[n + 1..];
      if fnmatch(rules[n].expr, queue) {
        perms := ApplyRule(perms, rules[n]);
      }
    }
  }

  // -------------------------------------------------------------------------
  // The order of the rules has no impact
  // -------------------------------------------------------------------------

  // The comparison the rules are sorted by, allowing rules first.
  function Compare(a: Acl, b: Acl): int {
    (if b.allow then 1 else 0) - (if a.allow then 1 else 0)
  }

  predicate Sorted(rules: seq<Acl>) {
    forall i, k :: 0 <= i < k < |rules| ==> Compare(rules[i], rules[k]) <= 0
  }

  predicate Permutation(a: seq<Acl>, b: seq<Acl>) {
    multiset(a) == multiset(b)
  }

  lemma {:induction false} FoldGidsBit(perms: map<Gid, set<Bit>>, r: Acl, gids: seq<Gid>, g: Gid, p: Bit)
    ensures p in MaskOf(FoldGids(perms, r, gids), g) <==>
            if g in gids && p in r.permissions then r.allow else p in MaskOf(perms, g)
    decreases gids
  {
    if gids != [] { FoldGidsBit(FoldGid(perms, r, gids[0]), r, gids[1..], g, p); }
  }

  // Rules of one kind only.
  lemma {:induction false} FoldDenies(perms: map<Gid, set<Bit>>, rules: seq<Acl>, fnmatch: (string, string) -> bool, queue: string, g: Gid, p: Bit)
    requires forall i :: 0 <= i < |rules| ==> !rules[i].allow
    ensures p in MaskOf(Fold(perms, rules, fnmatch, queue), g) <==> p in MaskOf(perms, g) && !SomeRule(rules, false, fnmatch, queue, g, p)
    decreases rules
  {
    if rules != [] {
      var r := rules[0];
      GroupsAreListed(r.gids, g);
      FoldGidsBit(perms, r, Groups(r.gids), g, p);
      FoldDenies(if fnmatch(r.expr, queue) then FoldGids(perms, r, Groups(r.gids)) else perms, rules[1..], fnmatch, queue, g, p);
      SomeHere(rules, false, fnmatch, queue, g, p);
    }
  }

  lemma SomeHere(rules: seq<Acl>, allow: bool, fnmatch: (string, string) -> bool, queue: string, g: Gid, p: Bit)
    requires rules != []
    ensures SomeRule(rules, allow, fnmatch, queue, g, p) <==>
            (rules[0].allow == allow && Speaks(rules[0], fnmatch, queue, g, p)) || SomeRule(rules[1..], allow, fnmatch, queue, g, p)
  {
    if SomeRule(rules, allow, fnmatch, queue, g, p) {
      var i :| 0 <= i < |rules| && rules[i].allow == allow && Speaks(rules[i], fnmatch, queue, g, p);
      if i > 0 { assert rules[1..][i - 1] == rules[i]; }
    }
    if SomeRule(rules[1..], allow, fnmatch, queue, g, p) {
      var i :| 0 <= i < |rules[1..]| && rules[1..][i].allow == allow && Speaks(rules[1..][i], fnmatch, queue, g, p);
      assert rules[i + 1] == rules[1..][i];
    }
  }

  // Sorted rules: all that is allowed comes before anything is denied.
  lemma {:induction false} FoldSorted(perms: map<Gid, set<Bit>>, rules: seq<Acl>, fnmatch: (string, string) -> bool, queue: string, g: Gid, p: Bit)
    requires Sorted(rules)
    ensures p in MaskOf(Fold(perms, rules, fnmatch, queue), g) <==>
            (p in MaskOf(perms, g) || SomeRule(rules, true, fnmatch, queue, g, p)) && !SomeRule(rules, false, fnmatch, queue, g, p)
    decreases rules
  {
    if rules != [] {
      var r := rules[0];
      SomeHere(rules, true, fnmatch, queue, g, p);
      if r.allow {
        SomeHere(rules, false, fnmatch, queue, g, p);
        GroupsAreListed(r.gids, g);
        FoldGidsBit(perms, r, Groups(r.gids), g, p);
        FoldSorted(if fnmatch(r.expr, queue) then FoldGids(perms, r, Groups(r.gids)) else perms, rules[1..], fnmatch, queue, g, p);
      } else {
        assert forall i :: 0 < i < |rules| ==> Compare(r, rules[i]) <= 0;
        FoldDenies(perms, rules, fnmatch, queue, g, p);
      }
    }
  }

  lemma SomePermuted(a: seq<Acl>, b: seq<Acl>, allow: bool, fnmatch: (string, string) -> bool, queue: string, g: Gid, p: Bit)
    requires Permutation(a, b) && SomeRule(a, allow, fnmatch, queue, g, p)
    ensures SomeRule(b, allow, fnmatch, queue, g, p)
  {
    var i :| 0 <= i < |a| && a[i].allow == allow && Speaks(a[i], fnmatch, queue, g, p);
    assert a[i] in multiset(b);
    var k :| 0 <= k < |b| && b[k] == a[i];
  }

  // However the configured rules are ordered and whatever sort orders them, a group has a permission on
  // a queue if and only if some rule whose expression matches the queue allows it to the group, naming the
  // group before any zero, and none denies it in the same way.
  lemma OrderHasNoImpact(configured: seq<Acl>, loaded: seq<Acl>, fnmatch: (string, string) -> bool, queue: string, g: Gid, p: Bit)
    requires Permutation(configured, loaded) && Sorted(loaded)
    ensures var perms := Fold(map[], loaded, fnmatch, queue);
            g in perms && p in perms[g] <==>
            && (exists i :: 0 <= i < |configured| && configured[i].allow && fnmatch(configured[i].expr, queue)
                            && Listed(configured[i].gids, g) && p in configured[i].permissions)
            && !(exists i :: 0 <= i < |configured| && !configured[i].allow && fnmatch(configured[i].expr, queue)
                             && Listed(configured[i].gids, g) && p in configured[i].permissions)
  {
    RulesDecide(configured, loaded, fnmatch, queue, g, p);
    hide Fold, Listed;
    assert forall i :: 0 <= i < |configured| ==>
      (Speaks(configured[i], fnmatch, queue, g, p) <==>
       fnmatch(configured[i].expr, queue) && Listed(configured[i].gids, g) && p in configured[i].permissions);
  }

  lemma RulesDecide(configured: seq<Acl>, loaded: seq<Acl>, fnmatch: (string, string) -> bool, queue: string, g: Gid, p: Bit)
    requires Permutation(configured, loaded) && Sorted(loaded)
    ensures p in MaskOf(Fold(map[], loaded, fnmatch, queue), g) <==>
            SomeRule(configured, true, fnmatch, queue, g, p) && !SomeRule(configured, false, fnmatch, queue, g, p)
  {
    FoldSorted(map[], loaded, fnmatch, queue, g, p);
    if SomeRule(configured, true, fnmatch, queue, g, p) { SomePermuted(configured, loaded, true, fnmatch, queue, g, p); }
    if SomeRule(loaded, true, fnmatch, queue, g, p) { SomePermuted(loaded, configured, true, fnmatch, queue, g, p); }
    if SomeRule(configured, false, fnmatch, queue, g, p) { SomePermuted(configured, loaded, false, fnmatch, queue, g, p); }
    if SomeRule(loaded, false, fnmatch, queue, g, p) { SomePermuted(loaded, configured, false, fnmatch, queue, g, p); }
  }

  lemma {:induction false} GidsListed(perms: map<Gid, set<Bit>>, r: Acl, gids: seq<Gid>, g: Gid)
    ensures g in FoldGids(perms, r, gids) <==> g in perms || (r.allow && g in gids)
    decreases gids
  {
    if gids != [] { GidsListed(FoldGid(perms, r, gids[0]), r, gids[1..], g); }
  }

  // A group stands in a queue's table of permissions if and only if a rule that allows, whatever it allows,
  // names it for that queue. A rule that denies lists no group.
  lemma {:induction false} OnlyAllowingRulesList(perms: map<Gid, set<Bit>>, rules: seq<Acl>, fnmatch: (string, string) -> bool, queue: string, g: Gid)
    ensures g in Fold(perms, rules, fnmatch, queue) <==>
            || g in perms
            || exists i :: 0 <= i < |rules| && rules[i].allow && fnmatch(rules[i].expr, queue) && Listed(rules[i].gids, g)
    decreases rules
  {
    if rules != [] {
      var r := rules[0];
      GroupsAreListed(r.gids, g);
      GidsListed(perms, r, Groups(r.gids), g);
      OnlyAllowingRulesList(if fnmatch(r.expr, queue) then FoldGids(perms, r, Groups(r.gids)) else perms, rules[1..], fnmatch, queue, g);
      hide Listed, FoldGids;
      assert forall i :: 0 < i < |rules| ==> rules[i] == rules[1..][i - 1];
      assert forall i :: 0 <= i < |rules[1..]| ==> rules[1..][i] == rules[i + 1];
    }
  }

  // Unsorted, the order would matter: two rules in the wrong order leave a denied permission in place.
  lemma UnsortedRulesDiffer(queue: string, g: Gid, p: Bit)
    requires g != 0
    ensures var any := (e: string, q: string) => true;
            var allow, deny := Acl("*", true, [g], {p}), Acl("*", false, [g], {p});
            && Permutation([allow, deny], [deny, allow])
            && p in MaskOf(Fold(map[], [deny, allow], any, queue), g) && p !in MaskOf(Fold(map[], [allow, deny], any, queue), g)
  {
    var any := (e: string, q: string) => true;
    var allow, deny := Acl("*", true, [g], {p}), Acl("*", false, [g], {p});
    assert Groups([g]) == [g];
    assert [deny, allow][1..] == [allow] && [allow, deny][1..] == [deny];
    FoldSorted(map[], [allow, deny], any, queue, g, p);
    assert Speaks([allow, deny][1], any, queue, g, p);
    FoldSorted(map[], [allow], any, queue, g, p);
    assert Speaks([allow][0], any, queue, g, p);
    assert FoldGids(map[], deny, [g]) == map[];
  }

  // -------------------------------------------------------------------------
  // Checking a user
  // -------------------------------------------------------------------------

  predicate InSomeGroup(perms: map<Gid, set<Bit>>, groups: seq<Gid>, p: Bit) {
    exists i :: 0 <= i < |groups| && p in MaskOf(perms, groups[i])
  }

  // The user's groups together have every permission required.
  ghost predicate Covered(perms: map<Gid, set<Bit>>, groups: seq<Gid>, required: set<Bit>) {
    forall p :: p in required ==> InSomeGroup(perms, groups, p)
  }

  // checkQueueACL: root and global queue admins always pass. Anyone else passes exactly when their groups
  // together cover what is required, and at least one of them is listed on the queue.
  method CheckQueueAcl(root: bool, admin: bool, groups: seq<Gid>, perms: map<Gid, set<Bit>>, required: set<Bit>) returns (refused: bool)
    ensures root || admin ==> !refused
    ensures !root && !admin ==> (!refused <==> Covered(perms, groups, required) && exists i :: 0 <= i < |groups| && groups[i] in perms)
    ensures !root && !admin && required != {} ==> (!refused <==> Covered(perms, groups, required))
  {
    if root {
      return false;
    }
    if admin {
      return false;
    }
    if required != {} && Covered(perms, groups, required) { CoveredIsListed(perms, groups, required); }
    var got: set<Bit> := {};
    for i := 0 to |groups|
      invariant forall p :: p in got <==> InSomeGroup(perms, groups[..i], p)
      invariant forall k :: 0 <= k < i && groups[k] in perms ==> !(required <= got)
    {
      InOneMore(perms, groups, i);
      if groups[i] in perms {
        got := got + perms[groups[i]];
        if required <= got {
          forall p | p in required ensures InSomeGroup(perms, groups, p) { InPrefix(perms, groups, i + 1, p); }
          return false;
        }
      }
    }
    assert groups[..|groups|] == groups;
    if Covered(perms, groups, required) { assert required <= got; }
    refused := true;
  }

  lemma CoveredIsListed(perms: map<Gid, set<Bit>>, groups: seq<Gid>, required: set<Bit>)
    requires required != {} && Covered(perms, groups, required)
    ensures exists i :: 0 <= i < |groups| && groups[i] in perms
  {
    var p :| p in required;
    assert InSomeGroup(perms, groups, p);
  }

  lemma InOneMore(perms: map<Gid, set<Bit>>, groups: seq<Gid>, i: nat)
    requires i < |groups|
    ensures forall p :: InSomeGroup(perms, groups[..i + 1], p) <==> InSomeGroup(perms, groups[..i], p) || p in MaskOf(perms, groups[i])
  {
    assert forall k :: 0 <= k < i ==> groups[..i + 1][k] == groups[..i][k];
    assert groups[..i + 1][i] == groups[i];
    forall p ensures InSomeGroup(perms, groups[..i + 1], p) <==> InSomeGroup(perms, groups[..i], p) || p in MaskOf(perms, groups[i]) {
      if k :| 0 <= k < |groups[..i]| && p in MaskOf(perms, groups[..i][k]) { assert p in MaskOf(perms, groups[..i + 1][k]); }
    }
  }

  lemma InPrefix(perms: map<Gid, set<Bit>>, groups: seq<Gid>, n: nat, p: Bit)
    requires n <= |groups| && InSomeGroup(perms, groups[..n], p)
    ensures InSomeGroup(perms, groups, p)
  {
    var k :| 0 <= k < |groups[..n]| && p in MaskOf(perms, groups[..n][k]);
    assert groups[k] == groups[..n][k];
  }
}
