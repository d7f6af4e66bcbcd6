/**
 The two-pointer overlap sweeps over sorted networks: the reported count and samples
 (_prepared_network_overlap_samples in app/route_intersections.py) and the members to delete from a losing
 set (_runtime_overlapping_loser_members in app/service_routes.py).
 */
module RouteOverlaps {
  import opened Wrappers

  import opened Networks

  // One parsed member: its text and the network it denotes.
  datatype Item = Item(value: string, net: Net)

  // A parsed snapshot, one list per version, sorted by first address.
  datatype Prepared = Prepared(v4: seq<Item>, v6: seq<Item>)

  datatype Priority = Priority(v4: seq<Net>, v6: seq<Net>)

  datatype Match = Match(left: string, right: string)

  predicate Sorted(items: seq<Item>) {
    forall i, j :: 0 <= i < j < |items| ==> First(items[i].net) <= First(items[j].net)
  }

  predicate WellPrepared(p: Prepared) {
    && Sorted(p.v4) && (forall i :: 0 <= i < |p.v4| ==> !p.v4[i].net.v6)
    && Sorted(p.v6) && (forall i :: 0 <= i < |p.v6| ==> p.v6[i].net.v6)
  }

  function Family(p: Prepared, v6: bool): seq<Item> {
    if v6 then p.v6 else p.v4
  }

  predicate InPriority(n: Net, p: Priority) {
    exists m :: m in (if n.v6 then p.v6 else p.v4) && SubnetOf(n, m)
  }

  // A host that only its own side gives priority is left alone.
  predicate Protected(left: Net, right: Net, leftPriority: Priority, rightPriority: Priority) {
    var leftHit := InPriority(left, leftPriority);
    var rightHit := InPriority(right, rightPriority);
    !(leftHit && rightHit) && ((leftHit && IsHost(left)) || (rightHit && IsHost(right)))
  }

  predicate Clash(left: Net, right: Net, leftPriority: Priority, rightPriority: Priority) {
    Overlap(left, right) && !Protected(left, right, leftPriority, rightPriority)
  }

  // The double loop: one row per left item, every right item tested.
  function Row(l: Item, right: seq<Item>, n: nat, lp: Priority, rp: Priority): set<Match>
    requires n <= |right|
  {
    if n == 0 then {}
    else Row(l, right, n - 1, lp, rp)
         + if Clash(l.net, right[n - 1].net, lp, rp) then {Match(l.value, right[n - 1].value)} else {}
  }

  function Table(left: seq<Item>, right: seq<Item>, m: nat, lp: Priority, rp: Priority): set<Match>
    requires m <= |left|
  {
    if m == 0 then {} else Table(left, right, m - 1, lp, rp) + Row(left[m - 1], right, |right|, lp, rp)
  }

  function AllMatches(left: Prepared, right: Prepared, lp: Priority, rp: Priority): set<Match> {
    Table(left.v4, right.v4, |left.v4|, lp, rp) + Table(left.v6, right.v6, |left.v6|, lp, rp)
  }

  function Render(m: Match): string {
    if m.left == m.right then m.left else m.left + " / " + m.right
  }

  function RenderAll(matches: seq<Match>): (texts: seq<string>)
    ensures |texts| == |matches|
  {
    if matches == [] then [] else RenderAll(matches[..|matches| - 1]) + [Render(matches[|matches| - 1])]
  }

  // Right items that end before the left one starts contribute nothing.
  lemma {:induction false} EarlyRow(l: Item, right: seq<Item>, n: nat, lp: Priority, rp: Priority)
    requires n <= |right| && forall k :: 0 <= k < n ==> Last(right[k].net) < First(l.net)
    ensures Row(l, right, n, lp, rp) == {}
  {
    if n > 0 { EarlyRow(l, right, n - 1, lp, rp); }
  }

  // Right items that start after the left one ends contribute nothing.
  lemma {:induction false} LateRow(l: Item, right: seq<Item>, n: nat, lp: Priority, rp: Priority)
    requires n <= |right| && forall k :: n <= k < |right| ==> First(right[k].net) > Last(l.net)
    ensures Row(l, right, |right|, lp, rp) == Row(l, right, n, lp, rp)
    decreases |right|
  {
    if n < |right| {
      LateRowTo(l, right, n, |right|, lp, rp);
    }
  }

  lemma {:induction false} LateRowTo(l: Item, right: seq<Item>, n: nat, m: nat, lp: Priority, rp: Priority)
    requires n <= m <= |right| && forall k :: n <= k < |right| ==> First(right[k].net) > Last(l.net)
    ensures Row(l, right, m, lp, rp) == Row(l, right, n, lp, rp)
  {
    if n < m { LateRowTo(l, right, n, m - 1, lp, rp); }
  }

  method OverlapSamples(left: Prepared, right: Prepared, maxSamples: nat, lp: Priority, rp: Priority)
    returns (samples: seq<string>, count: nat, ghost order: seq<Match>)
    requires WellPrepared(left) && WellPrepared(right)
    ensures NoRepeats(order) && (forall m :: m in order <==> m in AllMatches(left, right, lp, rp))
    ensures count == |AllMatches(left, right, lp, rp)|
    ensures count == |order| && samples == RenderAll(order[..Min(maxSamples, count)])
  {
    samples, count, order := [], 0, [];
    var seen: set<Match> := {};
    for round := 0 to 2
      invariant seen == (if round >= 1 then Table(left.v4, right.v4, |left.v4|, lp, rp) else {})
                        + (if round >= 2 then Table(left.v6, right.v6, |left.v6|, lp, rp) else {})
      invariant Reported(samples, count, order, seen, maxSamples)
    {
      samples, count, order, seen := Sweep(Family(left, round == 1), Family(right, round == 1), maxSamples, lp, rp,
                                           samples, count, order, seen);
    }
    OrderCounts(order, seen);
  }

  ghost predicate Reported(samples: seq<string>, count: nat, order: seq<Match>, seen: set<Match>, maxSamples: nat) {
    && NoRepeats(order) && (forall m :: m in order <==> m in seen)
    && count == |order| && samples == RenderAll(order[..Min(maxSamples, count)])
  }

  lemma {:induction false} OrderCounts(order: seq<Match>, seen: set<Match>)
    requires NoRepeats(order) && forall m :: m in order <==> m in seen
    ensures |order| == |seen|
  {
    if order != [] {
      var last := order[|order| - 1];
      OrderCounts(order[..|order| - 1], seen - {last});
    } else {
      assert forall m :: m in seen <==> m in order;
    }
  }

  lemma ReportOne(samples: seq<string>, count: nat, order: seq<Match>, seen: set<Match>, maxSamples: nat, m: Match)
    requires Reported(samples, count, order, seen, maxSamples) && m !in seen
    ensures Reported(if |samples| < maxSamples then samples + [Render(m)] else samples, count + 1, order + [m],
                     seen + {m}, maxSamples)
  {
    var next := order + [m];
    var k := Min(maxSamples, count + 1);
    if |samples| < maxSamples {
      assert next[..k] == next && next[..|next| - 1] == order == order[..Min(maxSamples, count)];
    } else {
      assert next[..k] == order[..Min(maxSamples, count)];
    }
  }

  lemma RowNext(l: Item, right: seq<Item>, n: nat, lp: Priority, rp: Priority)
    requires n < |right|
    ensures var r := right[n];
      Row(l, right, n + 1, lp, rp) ==
      if Clash(l.net, r.net, lp, rp) then Row(l, right, n, lp, rp) + {Match(l.value, r.value)}
      else Row(l, right, n, lp, rp)
  {
  }

  // The inner scan for one left item, from the right pointer on.
  method ScanRow(l: Item, right: seq<Item>, rightIndex: nat, maxSamples: nat, lp: Priority, rp: Priority,
                 samples0: seq<string>, count0: nat, ghost order0: seq<Match>, seen0: set<Match>)
    returns (samples: seq<string>, count: nat, ghost order: seq<Match>, seen: set<Match>)
    requires Sorted(right) && rightIndex <= |right|
    requires forall k :: 0 <= k < rightIndex ==> Last(right[k].net) < First(l.net)
    requires forall k :: 0 <= k < |right| ==> right[k].net.v6 == l.net.v6
    requires Reported(samples0, count0, order0, seen0, maxSamples)
    ensures seen == seen0 + Row(l, right, |right|, lp, rp)
    ensures Reported(samples, count, order, seen, maxSamples)
  {
    samples, count, order, seen := samples0, count0, order0, seen0;
    var scan := rightIndex;
    EarlyRow(l, right, rightIndex, lp, rp);
    while scan < |right| && First(right[scan].net) <= Last(l.net)
      invariant rightIndex <= scan <= |right|
      invariant seen == seen0 + Row(l, right, scan, lp, rp)
      invariant Reported(samples, count, order, seen, maxSamples)
    {
      var r := right[scan];
      RowNext(l, right, scan, lp, rp);
      if Last(r.net) >= First(l.net) && !Protected(l.net, r.net, lp, rp) {
        var m := Match(l.value, r.value);
        if m !in seen {
          ReportOne(samples, count, order, seen, maxSamples, m);
          seen := seen + {m};
          count := count + 1;
          order := order + [m];
          if |samples| < maxSamples { samples := samples + [Render(m)]; }
        }
      }
      scan := scan + 1;
    }
    LateRow(l, right, scan, lp, rp);
  }

  /** One version: the right pointer never moves back, yet every row is the full row of the double loop. */
  method Sweep(left: seq<Item>, right: seq<Item>, maxSamples: nat, lp: Priority, rp: Priority,
               samples0: seq<string>, count0: nat, ghost order0: seq<Match>, seen0: set<Match>)
    returns (samples: seq<string>, count: nat, ghost order: seq<Match>, seen: set<Match>)
    requires Sorted(left) && Sorted(right)
    requires forall i, j :: 0 <= i < |left| && 0 <= j < |right| ==> left[i].net.v6 == right[j].net.v6
    requires Reported(samples0, count0, order0, seen0, maxSamples)
    ensures seen == seen0 + Table(left, right, |left|, lp, rp)
    ensures Reported(samples, count, order, seen, maxSamples)
  {
    samples, count, order, seen := samples0, count0, order0, seen0;
    var rightIndex := 0;
    for i := 0 to |left|
      invariant 0 <= rightIndex <= |right|
      invariant forall k, j :: 0 <= k < rightIndex && i <= j < |left| ==> Last(right[k].net) < First(left[j].net)
      invariant seen == seen0 + Table(left, right, i, lp, rp)
      invariant Reported(samples, count, order, seen, maxSamples)
    {
      var l := left[i];
      while rightIndex < |right| && Last(right[rightIndex].net) < First(l.net)
        invariant 0 <= rightIndex <= |right|
        invariant forall k, j :: 0 <= k < rightIndex && i <= j < |left| ==> Last(right[k].net) < First(left[j].net)
      {
        rightIndex := rightIndex + 1;
      }
      samples, count, order, seen := ScanRow(l, right, rightIndex, maxSamples, lp, rp, samples, count, order, seen);
    }
  }

  // ---------------------------------------------------------------------------------------------
  // Members to delete from the losing set.

  ghost predicate Loses(l: Item, winners: seq<Item>, lp: Priority, wp: Priority) {
    exists j :: 0 <= j < |winners| && Clash(l.net, winners[j].net, lp, wp)
  }

  ghost predicate LosesIn(value: string, losers: seq<Item>, n: nat, winners: seq<Item>, lp: Priority, wp: Priority)
    requires n <= |losers|
  {
    exists i :: 0 <= i < n && losers[i].value == value && Loses(losers[i], winners, lp, wp)
  }

  method LoserMembers(losers: Prepared, winners: Prepared, lp: Priority, wp: Priority) returns (deletions: seq<string>)
    requires WellPrepared(losers) && WellPrepared(winners)
    ensures NoRepeats(deletions)
    ensures forall v :: v in deletions <==>
      LosesIn(v, losers.v4, |losers.v4|, winners.v4, lp, wp) || LosesIn(v, losers.v6, |losers.v6|, winners.v6, lp, wp)
  {
    deletions := SweepLosers(losers.v4, winners.v4, lp, wp, []);
    ghost var after4 := deletions;
    deletions := SweepLosers(losers.v6, winners.v6, lp, wp, deletions);
  }

  method SweepLosers(losers: seq<Item>, winners: seq<Item>, lp: Priority, wp: Priority, deletions0: seq<string>)
    returns (deletions: seq<string>)
    requires Sorted(losers) && Sorted(winners) && NoRepeats(deletions0)
    requires forall i, j :: 0 <= i < |losers| && 0 <= j < |winners| ==> losers[i].net.v6 == winners[j].net.v6
    ensures NoRepeats(deletions)
    ensures forall v :: v in deletions <==> v in deletions0 || LosesIn(v, losers, |losers|, winners, lp, wp)
  {
    deletions := deletions0;
    var winnerIndex := 0;
    for i := 0 to |losers|
      invariant 0 <= winnerIndex <= |winners| && NoRepeats(deletions)
      invariant forall k, j :: 0 <= k < winnerIndex && i <= j < |losers| ==> Last(winners[k].net) < First(losers[j].net)
      invariant forall v :: v in deletions <==> v in deletions0 || LosesIn(v, losers, i, winners, lp, wp)
    {
      var l := losers[i];
      while winnerIndex < |winners| && Last(winners[winnerIndex].net) < First(l.net)
        invariant 0 <= winnerIndex <= |winners|
        invariant forall k, j :: 0 <= k < winnerIndex && i <= j < |losers| ==>
                  Last(winners[k].net) < First(losers[j].net)
      {
        winnerIndex := winnerIndex + 1;
      }
      var scan := winnerIndex;
      var loses := false;
      while scan < |winners| && First(winners[scan].net) <= Last(l.net) && !loses
        invariant winnerIndex <= scan <= |winners|
        invariant loses ==> Loses(l, winners, lp, wp)
        invariant !loses ==> forall k :: 0 <= k < scan ==> !Clash(l.net, winners[k].net, lp, wp)
        decreases |winners| - scan, !loses
      {
        var w := winners[scan];
        if Last(w.net) >= First(l.net) && !Protected(l.net, w.net, lp, wp) {
          loses := true;
        } else {
          scan := scan + 1;
        }
      }
      ghost var before := deletions;
      if loses && l.value !in deletions { deletions := deletions + [l.value]; }
      assert loses <==> Loses(l, winners, lp, wp);
      forall v ensures v in deletions <==> v in deletions0 || LosesIn(v, losers, i + 1, winners, lp, wp) {
        assert LosesIn(v, losers, i + 1, winners, lp, wp) <==>
                  LosesIn(v, losers, i, winners, lp, wp) || (v == l.value && loses);
      }
    }
  }

  function Surviving(items: seq<Item>, deletions: seq<string>): seq<Item> {
    if items == [] then []
    else Surviving(items[..|items| - 1], deletions)
         + if items[|items| - 1].value in deletions then [] else [items[|items| - 1]]
  }

  lemma {:induction false} SurvivingItems(items: seq<Item>, deletions: seq<string>)
    ensures forall l :: l in Surviving(items, deletions) <==> l in items && l.value !in deletions
  {
    if items != [] { SurvivingItems(items[..|items| - 1], deletions); }
  }

  lemma {:induction false} RowIsEmpty(l: Item, right: seq<Item>, n: nat, lp: Priority, rp: Priority)
    requires n <= |right| && !Loses(l, right, lp, rp)
    ensures Row(l, right, n, lp, rp) == {}
  {
    if n > 0 { RowIsEmpty(l, right, n - 1, lp, rp); }
  }

  lemma {:induction false} TableIsEmpty(left: seq<Item>, right: seq<Item>, m: nat, lp: Priority, rp: Priority)
    requires m <= |left| && forall l :: l in left ==> !Loses(l, right, lp, rp)
    ensures Table(left, right, m, lp, rp) == {}
  {
    if m > 0 {
      TableIsEmpty(left, right, m - 1, lp, rp);
      RowIsEmpty(left[m - 1], right, |right|, lp, rp);
    }
  }

  /** After the loser members are deleted the double loop finds no unprotected overlap between the two sets. */
  lemma DeletionClearsOverlaps(losers: Prepared, winners: Prepared, lp: Priority, wp: Priority, deletions: seq<string>)
    requires forall v :: v in deletions <==>
      LosesIn(v, losers.v4, |losers.v4|, winners.v4, lp, wp) || LosesIn(v, losers.v6, |losers.v6|, winners.v6, lp, wp)
    ensures AllMatches(Prepared(Surviving(losers.v4, deletions), Surviving(losers.v6, deletions)), winners, lp, wp) ==
              {}
  {
    SurvivorsDoNotLose(losers.v4, winners.v4, lp, wp, deletions);
    SurvivorsDoNotLose(losers.v6, winners.v6, lp, wp, deletions);
  }

  lemma SurvivorsDoNotLose(losers: seq<Item>, winners: seq<Item>, lp: Priority, wp: Priority, deletions: seq<string>)
    requires forall v :: LosesIn(v, losers, |losers|, winners, lp, wp) ==> v in deletions
    ensures Table(Surviving(losers, deletions), winners, |Surviving(losers, deletions)|, lp, wp) == {}
  {
    SurvivingItems(losers, deletions);
    forall l | l in Surviving(losers, deletions) ensures !Loses(l, winners, lp, wp) {
      var i :| 0 <= i < |losers| && losers[i] == l;
      assert LosesIn(l.value, losers, |losers|, winners, lp, wp) || !Loses(losers[i], winners, lp, wp);
    }
    TableIsEmpty(Surviving(losers, deletions), winners, |Surviving(losers, deletions)|, lp, wp);
  }

  lemma {:induction false} RowMeaning(l: Item, right: seq<Item>, n: nat, lp: Priority, rp: Priority, m: Match)
    requires n <= |right|
    ensures m in Row(l, right, n, lp, rp) <==>
            exists j :: 0 <= j < n && Clash(l.net, right[j].net, lp, rp) && m == Match(l.value, right[j].value)
  {
    if n > 0 { RowMeaning(l, right, n - 1, lp, rp, m); }
  }

  /** A pair of texts is in the table exactly when some left and right member with those texts clash. */
  lemma {:induction false} TableMeaning(left: seq<Item>, right: seq<Item>, m: nat, lp: Priority, rp: Priority, x: Match)
    requires m <= |left|
    ensures x in Table(left, right, m, lp, rp) <==>
            exists i, j :: 0 <= i < m && 0 <= j < |right| && Clash(left[i].net, right[j].net, lp, rp)
                           && x == Match(left[i].value, right[j].value)
  {
    if m > 0 {
      TableMeaning(left, right, m - 1, lp, rp, x);
      RowMeaning(left[m - 1], right, |right|, lp, rp, x);
    }
  }

  // Some listed network of the same version covers every address of this one.
  ghost predicate Prioritised(n: Net, p: Priority) {
    exists m :: (m in p.v4 || m in p.v6) && (m in p.v6 <==> n.v6) && m.v6 == n.v6
                && First(m) <= First(n) && Last(n) <= Last(m)
  }

  // The lists of a priority hold networks of their version.
  predicate WellListed(p: Priority) {
    (forall m :: m in p.v4 ==> !m.v6) && (forall m :: m in p.v6 ==> m.v6)
  }

  /** A pair is left alone exactly if one of the two is a single address that its own side gives priority, and the other
      side gives its network none. */
  lemma ProtectedMeans(left: Net, right: Net, lp: Priority, rp: Priority)
    requires WellListed(lp) && WellListed(rp)
    ensures Protected(left, right, lp, rp) <==>
              || (left.prefix == Width(left.v6) && Prioritised(left, lp) && !Prioritised(right, rp))
              || (right.prefix == Width(right.v6) && Prioritised(right, rp) && !Prioritised(left, lp))
  {
    PriorityMeans(left, lp);
    PriorityMeans(right, rp);
  }

  lemma PriorityMeans(n: Net, p: Priority)
    requires WellListed(p)
    ensures InPriority(n, p) <==> Prioritised(n, p)
  {
    if Prioritised(n, p) {
      var m :| (m in p.v4 || m in p.v6) && (m in p.v6 <==> n.v6) && m.v6 == n.v6
               && First(m) <= First(n) && Last(n) <= Last(m);
      assert m in (if n.v6 then p.v6 else p.v4) && SubnetOf(n, m);
    }
    if InPriority(n, p) {
      var m :| m in (if n.v6 then p.v6 else p.v4) && SubnetOf(n, m);
      assert m in p.v6 <==> n.v6;
    }
  }

  // A left and a right member of one version with these texts share an address and are not left alone.
  ghost predicate Meet(left: seq<Item>, right: seq<Item>, lp: Priority, rp: Priority, x: Match) {
    exists l, r :: l in left && r in right && l.net.v6 == r.net.v6
                   && First(l.net) <= Last(r.net) && First(r.net) <= Last(l.net)
                   && !Protected(l.net, r.net, lp, rp) && x == Match(l.value, r.value)
  }

  lemma TableMeets(left: seq<Item>, right: seq<Item>, lp: Priority, rp: Priority, x: Match)
    ensures x in Table(left, right, |left|, lp, rp) <==> Meet(left, right, lp, rp, x)
  {
    TableMeaning(left, right, |left|, lp, rp, x);
    if Meet(left, right, lp, rp, x) {
      var l, r :| l in left && r in right && l.net.v6 == r.net.v6
                  && First(l.net) <= Last(r.net) && First(r.net) <= Last(l.net)
                  && !Protected(l.net, r.net, lp, rp) && x == Match(l.value, r.value);
      var i :| 0 <= i < |left| && left[i] == l;
      var j :| 0 <= j < |right| && right[j] == r;
      assert Clash(left[i].net, right[j].net, lp, rp);
    }
  }

  /** Over both versions: a pair of texts is reported exactly if two members with these texts meet. */
  lemma ReportMeans(left: Prepared, right: Prepared, lp: Priority, rp: Priority, x: Match)
    ensures x in AllMatches(left, right, lp, rp) <==>
              Meet(left.v4, right.v4, lp, rp, x) || Meet(left.v6, right.v6, lp, rp, x)
  {
    TableMeets(left.v4, right.v4, lp, rp, x);
    TableMeets(left.v6, right.v6, lp, rp, x);
  }

  // A sample names both members, or the one text they share.
  lemma SampleNames(m: Match)
    ensures var text := Render(m);
      && m.left <= text && |text| >= |m.right| && text[|text| - |m.right|..] == m.right
      && (m.left == m.right ==> text == m.left)
      && (m.left != m.right ==> |text| == |m.left| + 3 + |m.right| && text[|m.left|..|m.left| + 3] == " / ")
  {
  }
}
