/**
 Overlap removal between kernel sets (app/route_ipset_batch.py) against the per-member kernel loop it
 replaces (remove_runtime_overlap_from_set in app/unblock_ipset.sh).
 */
module IpsetBatch {
  import opened Wrappers
  import opened Networks

  type Name = string

  // Kernel sets in dump order.  A name that is absent is a set that does not exist.
  type Sets = map<Name, seq<Net>>

  datatype Deletion = Deletion(name: Name, member: Net)

  datatype OverlapRule = OverlapRule(loser: Name, winner: Name)

  // The kernel's test: a host asks for a network that contains it, a wider network asks for itself.
  predicate Accepts(members: seq<Net>, n: Net) {
    if IsHost(n) then exists i :: 0 <= i < |members| && Covers(members[i], Address(n.v6, n.addr)) else n in members
  }

  ghost predicate AllCanonical(members: seq<Net>) {
    forall i :: 0 <= i < |members| ==> Canonical(members[i])
  }

  /** The prefix index: one address table per (version, prefix length). */
  class NetIndex {
    var exact: set<Net>
    var prefixes: map<(bool, nat), set<nat>>
    ghost var members: seq<Net>

    ghost predicate Valid()
      reads this
    {
      && AllCanonical(members)
      && (forall n :: n in exact <==> n in members)
      && (forall n :: n in exact ==> (n.v6, n.prefix) in prefixes)
      && (forall k :: k in prefixes ==> forall x :: x in prefixes[k] <==> Net(k.0, x, k.1) in exact)
    }

    constructor (entries: seq<Net>)
      requires AllCanonical(entries)
      ensures Valid() && members == entries
    {
      exact, prefixes, members := {}, map[], [];
      new;
      for i := 0 to |entries|
        invariant members == entries[..i] && Valid()
      {
        var n := entries[i];
        var k := (n.v6, n.prefix);
        var table := if k in prefixes then prefixes[k] else {};
        assert forall x :: x in table <==> Net(k.0, x, k.1) in exact;
        assert entries[..i + 1] == entries[..i] + [n];
        exact := exact + {n};
        prefixes := prefixes[k := table + {n.addr}];
        members := members + [n];
      }
      assert entries[..|entries|] == entries;
    }

    /** One masked lookup per stored prefix length finds exactly what the kernel's test accepts. */
    method Contains(n: Net) returns (found: bool)
      requires Valid() && Canonical(n)
      ensures found == Accepts(members, n)
    {
      if n.prefix != Width(n.v6) { return n in exact; }
      var keys := prefixes.Keys;
      while keys != {}
        invariant keys <= prefixes.Keys
        invariant forall i :: 0 <= i < |members| && (members[i].v6, members[i].prefix) !in keys ==>
                    !Covers(members[i], Address(n.v6, n.addr))
        decreases |keys|
      {
        var k :| k in keys;
        if k.0 == n.v6 && k.1 <= Width(n.v6) {
          var size := Pow2(Width(n.v6) - k.1);
          var masked := n.addr / size * size;
          if masked in prefixes[k] {
            var hit := Net(k.0, masked, k.1);
            assert hit in exact && Canonical(hit);
            MaskFinds(n.addr, masked, size);
            return true;
          }
          forall i | 0 <= i < |members| && (members[i].v6, members[i].prefix) == k
            ensures !Covers(members[i], Address(n.v6, n.addr))
          {
            var m := members[i];
            assert m in exact;
            MaskFinds(n.addr, m.addr, size);
          }
        }
        keys := keys - {k};
      }
      found := false;
    }
  }

  // ---------------------------------------------------------------------------------------------
  // The kernel loop: test and delete one member at a time, each test against the sets as they are then.

  function Without(members: seq<Net>, n: Net): seq<Net> {
    if members == [] then []
    else if members[0] == n then Without(members[1..], n) else [members[0]] + Without(members[1..], n)
  }

  function Delete(sets: Sets, d: Deletion): Sets {
    if d.name in sets then sets[d.name := Without(sets[d.name], d.member)] else sets
  }

  function DeleteAll(sets: Sets, commands: seq<Deletion>): Sets {
    if commands == [] then sets else DeleteAll(Delete(sets, commands[0]), commands[1..])
  }

  predicate Present(sets: Sets, r: OverlapRule) {
    r.loser in sets && r.winner in sets
  }

  function KernelLoop(sets: Sets, r: OverlapRule, listed: seq<Net>): Sets
    requires Present(sets, r)
    decreases |listed|
  {
    if listed == [] then sets
    else if Accepts(sets[r.winner], listed[0]) then
      KernelLoop(Delete(sets, Deletion(r.loser, listed[0])), r, listed[1..])
    else KernelLoop(sets, r, listed[1..])
  }

  function KernelRule(sets: Sets, r: OverlapRule): Sets {
    if Present(sets, r) then KernelLoop(sets, r, sets[r.loser]) else sets
  }

  function KernelRules(sets: Sets, rules: seq<OverlapRule>): Sets {
    if rules == [] then sets else KernelRule(KernelRules(sets, rules[..|rules| - 1]), rules[|rules| - 1])
  }

  // ---------------------------------------------------------------------------------------------
  // The batch: work on snapshots, collect deletions, apply them all at the end.

  function Kept(members: seq<Net>, winner: seq<Net>): seq<Net> {
    if members == [] then []
    else if Accepts(winner, members[0]) then Kept(members[1..], winner) else [members[0]] + Kept(members[1..], winner)
  }

  function Dropped(members: seq<Net>, winner: seq<Net>, name: Name): seq<Deletion> {
    if members == [] then []
    else if Accepts(winner, members[0]) then [Deletion(name, members[0])] + Dropped(members[1..], winner, name)
    else Dropped(members[1..], winner, name)
  }

  predicate ValidName(name: Name) {
    1 <= |name| <= 31 && forall i :: 0 <= i < |name| ==>
      'a' <= name[i] <= 'z' || 'A' <= name[i] <= 'Z' || '0' <= name[i] <= '9' || name[i] == '_'
  }

  function Names(rules: seq<OverlapRule>): set<Name> {
    (set r | r in rules :: r.loser) + (set r | r in rules :: r.winner)
  }

  predicate Accepted(rules: seq<OverlapRule>) {
    |Names(rules)| <= 32 && forall name :: name in Names(rules) ==> ValidName(name)
  }

  ghost predicate CanonicalSets(sets: Sets) {
    forall name :: name in sets ==> AllCanonical(sets[name])
  }

  // The plan for the first members of the list is made; what is left is the plan for the rest.
  ghost predicate Planned(listed: seq<Net>, j: nat, winner: seq<Net>, name: Name, kept: seq<Net>,
                          dropped: seq<Deletion>)
    requires j <= |listed|
  {
    && Kept(listed, winner) == kept + Kept(listed[j..], winner)
    && Dropped(listed, winner, name) == dropped + Dropped(listed[j..], winner, name)
  }

  lemma PlanNext(listed: seq<Net>, j: nat, winner: seq<Net>, name: Name, kept: seq<Net>, dropped: seq<Deletion>)
    requires j < |listed| && Planned(listed, j, winner, name, kept, dropped)
    ensures if Accepts(winner, listed[j]) then
              Planned(listed, j + 1, winner, name, kept, dropped + [Deletion(name, listed[j])])
            else Planned(listed, j + 1, winner, name, kept + [listed[j]], dropped)
  {
  }

  // The inner loop for one rule.
  method PlanRule(listed: seq<Net>, winner: seq<Net>, name: Name) returns (kept: seq<Net>, dropped: seq<Deletion>)
    requires AllCanonical(listed) && AllCanonical(winner)
    ensures kept == Kept(listed, winner) && dropped == Dropped(listed, winner, name)
    ensures AllCanonical(kept)
  {
    var index := new NetIndex(winner);
    kept, dropped := [], [];
    for j := 0 to |listed|
      invariant AllCanonical(kept) && index.Valid() && index.members == winner
      invariant Planned(listed, j, winner, name, kept, dropped)
    {
      PlanNext(listed, j, winner, name, kept, dropped);
      var found := index.Contains(listed[j]);
      if found {
        dropped := dropped + [Deletion(name, listed[j])];
      } else {
        kept := kept + [listed[j]];
      }
    }
  }

  method RemoveOverlaps(sets: Sets, rules: seq<OverlapRule>) returns (commands: Option<seq<Deletion>>)
    requires CanonicalSets(sets)
    ensures commands.Some? <==> Accepted(rules)
    ensures commands.Some? ==> DeleteAll(sets, commands.value) == KernelRules(sets, rules)
  {
    var names := Names(rules);
    if |names| > 32 || !(forall name :: name in names ==> ValidName(name)) { return None; }
    var snapshots := sets;
    var collected: seq<Deletion> := [];
    for i := 0 to |rules|
      invariant CanonicalSets(snapshots)
      invariant snapshots == KernelRules(sets, rules[..i])
      invariant DeleteAll(sets, collected) == snapshots
    {
      var r := rules[i];
      assert rules[..i + 1][..i] == rules[..i];
      if r.loser in snapshots && r.winner in snapshots {
        var kept, dropped := PlanRule(snapshots[r.loser], snapshots[r.winner], r.loser);
        BatchIsKernelRule(snapshots, r);
        DeleteAllSplits(sets, collected, dropped);
        collected := collected + dropped;
        snapshots := snapshots[r.loser := kept];
      }
    }
    assert rules[..|rules|] == rules;
    commands := Some(collected);
  }

  lemma {:induction false} DeleteAllSplits(sets: Sets, first: seq<Deletion>, then_: seq<Deletion>)
    ensures DeleteAll(sets, first + then_) == DeleteAll(DeleteAll(sets, first), then_)
    decreases |first|
  {
    if first == [] {
      assert first + then_ == then_;
    } else {
      assert (first + then_)[1..] == first[1..] + then_;
      DeleteAllSplits(Delete(sets, first[0]), first[1..], then_);
    }
  }

  lemma {:induction false} WithoutMembers(members: seq<Net>, n: Net)
    ensures forall x :: x in Without(members, n) <==> x in members && x != n
  {
    if members != [] { WithoutMembers(members[1..], n); }
  }

  lemma {:induction false} KeptMembers(members: seq<Net>, winner: seq<Net>)
    ensures forall x :: x in Kept(members, winner) <==> x in members && !Accepts(winner, x)
  {
    if members != [] { KeptMembers(members[1..], winner); }
  }

  // What stays of `members` when every listed member that the winner accepts is deleted.
  function Remaining(members: seq<Net>, listed: seq<Net>, winner: seq<Net>): seq<Net> {
    if members == [] then []
    else if members[0] in listed && Accepts(winner, members[0]) then Remaining(members[1..], listed, winner)
    else [members[0]] + Remaining(members[1..], listed, winner)
  }

  lemma {:induction false} RemainingAfterOne(members: seq<Net>, listed: seq<Net>, winner: seq<Net>)
    requires listed != []
    ensures Remaining(members, listed, winner) ==
            Remaining(if Accepts(winner, listed[0]) then Without(members, listed[0]) else members, listed[1..], winner)
  {
    if members != [] { RemainingAfterOne(members[1..], listed, winner); }
  }

  lemma {:induction false} RemainingOfAll(members: seq<Net>, listed: seq<Net>, winner: seq<Net>)
    requires forall x :: x in members ==> x in listed
    ensures Remaining(members, listed, winner) == Kept(members, winner)
  {
    if members != [] { RemainingOfAll(members[1..], listed, winner); }
  }

  lemma {:induction false} RemainingOfNone(members: seq<Net>, winner: seq<Net>)
    ensures Remaining(members, [], winner) == members
  {
    if members != [] { RemainingOfNone(members[1..], winner); }
  }

  lemma {:induction false} DroppedLeaves(sets: Sets, name: Name, listed: seq<Net>, winner: seq<Net>)
    requires name in sets
    ensures DeleteAll(sets, Dropped(listed, winner, name)) == sets[name := Remaining(sets[name], listed, winner)]
    decreases |listed|
  {
    if listed == [] {
      RemainingOfNone(sets[name], winner);
    } else {
      RemainingAfterOne(sets[name], listed, winner);
      var next := if Accepts(winner, listed[0]) then Delete(sets, Deletion(name, listed[0])) else sets;
      DroppedLeaves(next, name, listed[1..], winner);
    }
  }

  lemma {:induction false} LoopOnOther(sets: Sets, r: OverlapRule, listed: seq<Net>)
    requires Present(sets, r) && r.loser != r.winner
    ensures KernelLoop(sets, r, listed) == DeleteAll(sets, Dropped(listed, sets[r.winner], r.loser))
    decreases |listed|
  {
    if listed != [] {
      var next := if Accepts(sets[r.winner], listed[0]) then Delete(sets, Deletion(r.loser, listed[0])) else sets;
      LoopOnOther(next, r, listed[1..]);
    }
  }

  // The kernel's test in terms of addresses: a host is found in any network around it, a wider network only as such.
  lemma AcceptsMeans(members: seq<Net>, n: Net)
    ensures n.prefix == Width(n.v6) ==>
              (Accepts(members, n) <==> exists m :: m in members && m.v6 == n.v6 && First(m) <= n.addr <= Last(m))
    ensures n.prefix != Width(n.v6) ==> (Accepts(members, n) <==> n in members)
  {
    if m :| m in members && m.v6 == n.v6 && First(m) <= n.addr <= Last(m) {
      var i :| 0 <= i < |members| && members[i] == m;
      assert Covers(members[i], Address(n.v6, n.addr));
    }
  }

  lemma AcceptsItself(members: seq<Net>, n: Net)
    requires n in members
    ensures Accepts(members, n)
  {
  }

  lemma {:induction false} WithoutAbsent(members: seq<Net>, n: Net)
    requires n !in members
    ensures Without(members, n) == members
  {
    if members != [] { WithoutAbsent(members[1..], n); }
  }

  // A set run against itself: whatever is still there is accepted by itself, whatever is gone is gone.
  lemma {:induction false} LoopOnItself(sets: Sets, r: OverlapRule, listed: seq<Net>, original: seq<Net>)
    requires Present(sets, r) && r.loser == r.winner && forall x :: x in listed ==> x in original
    ensures KernelLoop(sets, r, listed) == DeleteAll(sets, Dropped(listed, original, r.loser))
    decreases |listed|
  {
    if listed != [] {
      AcceptsItself(original, listed[0]);
      var next := Delete(sets, Deletion(r.loser, listed[0]));
      if listed[0] in sets[r.winner] {
        AcceptsItself(sets[r.winner], listed[0]);
      } else {
        WithoutAbsent(sets[r.loser], listed[0]);
        assert next == sets;
      }
      LoopOnItself(next, r, listed[1..], original);
    }
  }

  /** One rule: the batch's deletions leave exactly the sets that the kernel loop leaves, even when a set is
      run against itself. */
  lemma BatchIsKernelRule(sets: Sets, r: OverlapRule)
    requires Present(sets, r)
    ensures var kept := Kept(sets[r.loser], sets[r.winner]);
      && DeleteAll(sets, Dropped(sets[r.loser], sets[r.winner], r.loser)) == sets[r.loser := kept]
      && KernelRule(sets, r) == sets[r.loser := kept]
  {
    var listed := sets[r.loser];
    DroppedLeaves(sets, r.loser, listed, sets[r.winner]);
    RemainingOfAll(listed, listed, sets[r.winner]);
    if r.loser == r.winner { LoopOnItself(sets, r, listed, listed); } else { LoopOnOther(sets, r, listed); }
  }

  // ---------------------------------------------------------------------------------------------
  // What a run of rules guarantees.

  ghost predicate Reached(sets: Sets, x: Address) {
    exists name, i :: name in sets && 0 <= i < |sets[name]| && Covers(sets[name][i], x)
  }

  ghost predicate Shrunk(before: Sets, after: Sets) {
    before.Keys == after.Keys && forall name :: name in before ==> forall n :: n in after[name] ==> n in before[name]
  }

  lemma FewerAcceptLess(more: seq<Net>, fewer: seq<Net>, n: Net)
    requires (forall x :: x in fewer ==> x in more) && Accepts(fewer, n)
    ensures Accepts(more, n)
  {
    if IsHost(n) {
      var i :| 0 <= i < |fewer| && Covers(fewer[i], Address(n.v6, n.addr));
      assert fewer[i] in more;
      var j :| 0 <= j < |more| && more[j] == fewer[i];
      assert Covers(more[j], Address(n.v6, n.addr));
    }
  }

  lemma RuleShrinks(sets: Sets, r: OverlapRule)
    ensures Shrunk(sets, KernelRule(sets, r))
    ensures Present(sets, r) ==>
              forall n :: n in KernelRule(sets, r)[r.loser] ==> !Accepts(KernelRule(sets, r)[r.winner], n)
  {
    if Present(sets, r) {
      BatchIsKernelRule(sets, r);
      KeptMembers(sets[r.loser], sets[r.winner]);
      var after := KernelRule(sets, r);
      forall n | n in after[r.loser] ensures !Accepts(after[r.winner], n) {
        if Accepts(after[r.winner], n) { FewerAcceptLess(sets[r.winner], after[r.winner], n); }
      }
    }
  }

  /** After the whole batch no remaining member of any loser is accepted by its winner, although later rules
      may have shrunk either set again. */
  lemma {:induction false} NothingLeftToRemove(sets: Sets, rules: seq<OverlapRule>)
    ensures Shrunk(sets, KernelRules(sets, rules))
    ensures forall i :: 0 <= i < |rules| && Present(sets, rules[i]) ==>
      var after := KernelRules(sets, rules);
      forall n :: n in after[rules[i].loser] ==> !Accepts(after[rules[i].winner], n)
  {
    if rules != [] {
      var earlier := rules[..|rules| - 1];
      NothingLeftToRemove(sets, earlier);
      var before, after := KernelRules(sets, earlier), KernelRules(sets, rules);
      RuleShrinks(before, rules[|rules| - 1]);
      forall i, n | 0 <= i < |rules| - 1 && Present(sets, rules[i]) && n in after[rules[i].loser]
        ensures !Accepts(after[rules[i].winner], n)
      {
        assert earlier[i] == rules[i];
        assert n in before[rules[i].loser];
        if Accepts(after[rules[i].winner], n) { FewerAcceptLess(before[rules[i].winner], after[rules[i].winner], n); }
      }
    }
  }

  lemma RuleKeepsAddress(sets: Sets, r: OverlapRule, x: Address)
    requires r.loser != r.winner
    ensures Reached(KernelRule(sets, r), x) <==> Reached(sets, x)
  {
    var after := KernelRule(sets, r);
    RuleShrinks(sets, r);
    if Reached(after, x) {
      var name, i :| name in after && 0 <= i < |after[name]| && Covers(after[name][i], x);
      assert after[name][i] in sets[name];
    }
    if Reached(sets, x) && Present(sets, r) {
      BatchIsKernelRule(sets, r);
      KeptMembers(sets[r.loser], sets[r.winner]);
      var name, i :| name in sets && 0 <= i < |sets[name]| && Covers(sets[name][i], x);
      var n := sets[name][i];
      if name != r.loser {
        assert Covers(after[name][i], x);
      } else if Accepts(sets[r.winner], n) {
        if IsHost(n) {
          var j :| 0 <= j < |sets[r.winner]| && Covers(sets[r.winner][j], Address(n.v6, n.addr));
          assert Covers(after[r.winner][j], x);
        } else {
          var j :| 0 <= j < |sets[r.winner]| && sets[r.winner][j] == n;
          assert Covers(after[r.winner][j], x);
        }
      } else {
        assert n in after[r.loser];
        var j :| 0 <= j < |after[r.loser]| && after[r.loser][j] == n;
        assert Covers(after[r.loser][j], x);
      }
    }
  }

  /** When no rule names one set twice, the addresses covered by all sets together never change. */
  lemma {:induction false} CoverageIsConserved(sets: Sets, rules: seq<OverlapRule>, x: Address)
    requires forall i :: 0 <= i < |rules| ==> rules[i].loser != rules[i].winner
    ensures Reached(KernelRules(sets, rules), x) <==> Reached(sets, x)
  {
    if rules != [] {
      CoverageIsConserved(sets, rules[..|rules| - 1], x);
      RuleKeepsAddress(KernelRules(sets, rules[..|rules| - 1]), rules[|rules| - 1], x);
    }
  }

  /** A rule that names one set twice empties it, so its addresses survive only where another set covers them. */
  lemma SelfRuleEmpties(sets: Sets, name: Name, x: Address)
    requires name in sets
    ensures name in KernelRule(sets, OverlapRule(name, name)) && KernelRule(sets, OverlapRule(name, name))[name] == []
    ensures Reached(KernelRule(sets, OverlapRule(name, name)), x) <==> Reached(sets - {name}, x)
  {
    var r := OverlapRule(name, name);
    BatchIsKernelRule(sets, r);
    KeptMembers(sets[name], sets[name]);
    var kept := Kept(sets[name], sets[name]);
    if kept != [] {
      assert kept[0] in kept;
      AcceptsItself(sets[name], kept[0]);
    }
    var after := KernelRule(sets, r);
    if Reached(after, x) {
      var other, i :| other in after && 0 <= i < |after[other]| && Covers(after[other][i], x);
      assert other in sets - {name} && (sets - {name})[other] == after[other];
    }
    if Reached(sets - {name}, x) {
      var rest := sets - {name};
      var other, i :| other in rest && 0 <= i < |rest[other]| && Covers(rest[other][i], x);
      assert other in after && after[other] == rest[other];
    }
  }

  /** Any batch: an address stays covered exactly if no rule of a set against itself finds it in that set alone. */
  lemma {:induction false} CoverageIsExact(sets: Sets, rules: seq<OverlapRule>, x: Address)
    ensures Reached(KernelRules(sets, rules), x) <==>
              && Reached(sets, x)
              && forall i :: 0 <= i < |rules| && rules[i].loser == rules[i].winner ==> SurvivesAt(sets, rules, i, x)
  {
    if rules != [] {
      var earlier, last := rules[..|rules| - 1], rules[|rules| - 1];
      var before := KernelRules(sets, earlier);
      CoverageIsExact(sets, earlier, x);
      if last.loser != last.winner {
        RuleKeepsAddress(before, last, x);
      } else if last.loser in before {
        SelfRuleEmpties(before, last.loser, x);
        FewerSets(before, last.loser, x);
      } else {
        assert before - {last.loser} == before;
      }
      SurvivesEarlier(sets, rules, x);
      assert SurvivesAt(sets, rules, |rules| - 1, x) <==> Reached(before - {last.loser}, x);
    }
  }

  // Before rule i, some other set than its loser covers the address.
  ghost predicate SurvivesAt(sets: Sets, rules: seq<OverlapRule>, i: int, x: Address)
    requires 0 <= i < |rules|
  {
    Reached(KernelRules(sets, rules[..i]) - {rules[i].loser}, x)
  }

  lemma SurvivesEarlier(sets: Sets, rules: seq<OverlapRule>, x: Address)
    requires rules != []
    ensures forall i :: 0 <= i < |rules| - 1 ==>
              (SurvivesAt(sets, rules[..|rules| - 1], i, x) <==> SurvivesAt(sets, rules, i, x))
  {
    assert forall i :: 0 <= i < |rules| - 1 ==> rules[..|rules| - 1][..i] == rules[..i];
  }

  lemma FewerSets(sets: Sets, name: Name, x: Address)
    ensures Reached(sets - {name}, x) ==> Reached(sets, x)
  {
    if Reached(sets - {name}, x) {
      var rest := sets - {name};
      var other, i :| other in rest && 0 <= i < |rest[other]| && Covers(rest[other][i], x);
      assert other in sets && sets[other] == rest[other];
    }
  }

  lemma {:induction false} FewNames(rules: seq<OverlapRule>)
    ensures |Names(rules)| <= 2 * |rules|
  {
    if rules != [] {
      var earlier, last := rules[..|rules| - 1], rules[|rules| - 1];
      FewNames(earlier);
      NamesGrow(earlier, last);
      assert rules == earlier + [last];
    }
  }

  lemma NamesGrow(rules: seq<OverlapRule>, last: OverlapRule)
    ensures |Names(rules + [last])| <= |Names(rules)| + 2
  {
    var more := {last.loser, last.winner};
    assert Names(rules + [last]) == Names(rules) + more;
    assert |more| <= 2 && |Names(rules) + more| <= |Names(rules)| + |more|;
  }

  /** Sixteen rules are never too many: they are refused exactly for a name that one of them uses. */
  lemma RefusedForName(rules: seq<OverlapRule>)
    requires |rules| <= 16
    ensures !Accepted(rules) <==>
              exists i :: 0 <= i < |rules| && (!ValidName(rules[i].loser) || !ValidName(rules[i].winner))
  {
    FewNames(rules);
    forall i | 0 <= i < |rules| ensures rules[i].loser in Names(rules) && rules[i].winner in Names(rules) {
      assert rules[i] in rules;
    }
    if !Accepted(rules) {
      var name :| name in Names(rules) && !ValidName(name);
      var r :| r in rules && (r.loser == name || r.winner == name);
    }
  }

  /** One host in one set: a rule of the set against itself loses it. */
  lemma SelfRuleExample()
    ensures var sets: Sets := map["only" := [Net(false, 7, 32)]];
      Reached(sets, Address(false, 7)) && !Reached(KernelRules(sets, [OverlapRule("only", "only")]), Address(false, 7))
  {
    var sets: Sets := map["only" := [Net(false, 7, 32)]];
    var x := Address(false, 7);
    assert Pow2(0) == 1;
    assert Covers(sets["only"][0], x);
    SelfRuleEmpties(sets, "only", x);
    assert [OverlapRule("only", "only")][..0] == [];
    assert sets - {"only"} == map[];
  }
}
