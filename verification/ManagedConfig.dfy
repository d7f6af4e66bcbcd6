/**
 The configuration that a controlled load runs (managed_config in app/xray_live_apply.py:98-153): generation tags,
 one balancer per managed outbound, an API rule in front and a guard as first outbound.  It routes every flow to the
 same outbound as the configuration it was made from, except that a missing outbound means the guard.
 */
module ManagedConfig {
  import opened Wrappers
  import opened RuntimeModel

  const API_TAG := "bypass-api"
  const BLACKHOLE := "blackhole"

  // A routing rule: the condition it tests and the outbound it names.
  datatype TaggedRule = TaggedRule(condition: nat, tag: Tag)

  datatype Routed = Routed(rules: seq<TaggedRule>, outbounds: seq<Outbound>, inbounds: seq<Tag>, reserved: bool)

  datatype Target = ToOutbound(tag: Tag) | ToBalancer(balancer: Tag)

  datatype Condition = FromApi | Holds(condition: nat) | Always

  datatype BalancedRule = BalancedRule(condition: Condition, target: Target)

  // `selectors` gives each balancer's tag prefix.
  datatype Managed = Managed(rules: seq<BalancedRule>, outbounds: seq<Outbound>, selectors: map<Tag, Tag>)

  datatype Flow = Flow(fromApi: bool, holding: set<nat>)

  // ---------------------------------------------------------------------------------------------
  // What the core does with a configuration: the first rule that applies decides, a missing outbound means the first.

  function Body(outbounds: seq<Outbound>, tag: Tag): string
    requires outbounds != []
  {
    if Find(outbounds, tag).Some? then Find(outbounds, tag).value.body else outbounds[0].body
  }

  function Chosen(rules: seq<TaggedRule>, f: Flow): Option<Tag> {
    if rules == [] then None else if rules[0].condition in f.holding then Some(rules[0].tag) else Chosen(rules[1..], f)
  }

  function Route(c: Routed, f: Flow): string
    requires c.outbounds != []
  {
    match Chosen(c.rules, f)
    case None => c.outbounds[0].body
    case Some(tag) => Body(c.outbounds, tag)
  }

  predicate Applies(c: Condition, f: Flow) {
    match c
    case FromApi => f.fromApi
    case Holds(n) => n in f.holding
    case Always => true
  }

  function ChosenTarget(rules: seq<BalancedRule>, f: Flow): Option<Target> {
    if rules == [] then None else if Applies(rules[0].condition, f) then Some(rules[0].target)
    else ChosenTarget(rules[1..], f)
  }

  // The outbounds a balancer picks from: all whose tags begin with its selector.
  function Selected(outbounds: seq<Outbound>, selector: Tag): seq<Outbound> {
    if outbounds == [] then []
    else (if selector <= outbounds[0].tag then [outbounds[0]] else []) + Selected(outbounds[1..], selector)
  }

  // Every body behind a target; a balancer with nothing to pick means the first outbound.
  function Bodies(m: Managed, target: Target): set<string>
    requires m.outbounds != []
  {
    match target
    case ToOutbound(tag) => {Body(m.outbounds, tag)}
    case ToBalancer(b) => Picked(m, if b in m.selectors then Selected(m.outbounds, m.selectors[b]) else [])
  }

  function Picked(m: Managed, picked: seq<Outbound>): set<string>
    requires m.outbounds != []
  {
    if picked == [] then {m.outbounds[0].body} else set i | 0 <= i < |picked| :: picked[i].body
  }

  // Every body that a flow can reach.
  function Reached(m: Managed, f: Flow): set<string>
    requires m.outbounds != []
  {
    match ChosenTarget(m.rules, f)
    case None => {m.outbounds[0].body}
    case Some(target) => Bodies(m, target)
  }

  // ---------------------------------------------------------------------------------------------
  // The construction.

  function Names(c: Routed): set<Tag> {
    (set i | 0 <= i < |c.outbounds| :: c.outbounds[i].tag) + set i | 0 <= i < |c.inbounds| :: c.inbounds[i]
  }

  function ManagedNames(c: Routed): set<Tag> {
    set i | 0 <= i < |c.outbounds| && IsManaged(c.outbounds[i].tag) :: c.outbounds[i].tag
  }

  // The refusals: nothing to route to, API or balancers already there, reserved tags, a bad generation mapping.
  predicate Accepted(c: Routed, targets: map<Tag, Tag>) {
    && c.outbounds != [] && !c.reserved
    && (forall i, j :: 0 <= i < j < |c.outbounds| ==> c.outbounds[i].tag != c.outbounds[j].tag)
    && (forall t :: t in Names(c) ==> !Reserved(t))
    && GoodTargets(ManagedNames(c), targets)
  }

  // What is refused, spelled by tags: every outbound of a protocol has a target, and nothing else has.
  lemma AcceptedMeans(c: Routed, targets: map<Tag, Tag>, i: nat)
    requires Accepted(c, targets) && i < |c.outbounds|
    ensures !c.reserved && !("bypass-" <= c.outbounds[i].tag) && '@' !in c.outbounds[i].tag
    ensures c.outbounds[i].tag in targets <==> "proxy-" <= c.outbounds[i].tag
    ensures forall j :: 0 <= j < |c.inbounds| ==> !("bypass-" <= c.inbounds[j]) && '@' !in c.inbounds[j]
    ensures forall j :: 0 <= j < |c.outbounds| && j != i ==> c.outbounds[j].tag != c.outbounds[i].tag
  {
    assert c.outbounds[i].tag in Names(c);
    forall j | 0 <= j < |c.inbounds| ensures !Reserved(c.inbounds[j]) { assert c.inbounds[j] in Names(c); }
  }

  function Retagged(outbounds: seq<Outbound>, targets: map<Tag, Tag>): (r: seq<Outbound>)
    ensures |r| == |outbounds|
    ensures forall i :: 0 <= i < |r| ==> r[i].body == outbounds[i].body
    ensures forall i :: 0 <= i < |r| ==>
      r[i].tag == if outbounds[i].tag in targets then targets[outbounds[i].tag] else outbounds[i].tag
  {
    seq(|outbounds|, i requires 0 <= i < |outbounds| =>
      Outbound(if outbounds[i].tag in targets then targets[outbounds[i].tag] else outbounds[i].tag, outbounds[i].body))
  }

  function Redirected(tag: Tag, targets: map<Tag, Tag>): Target {
    if tag in targets then ToBalancer(BalancerTag(tag)) else ToOutbound(tag)
  }

  function Balanced(rules: seq<TaggedRule>, targets: map<Tag, Tag>): seq<BalancedRule> {
    if rules == [] then []
    else [BalancedRule(Holds(rules[0].condition), Redirected(rules[0].tag, targets))] + Balanced(rules[1..], targets)
  }

  function Selectors(targets: map<Tag, Tag>): map<Tag, Tag> {
    map b | b in set t | t in targets :: BalancerTag(t) :: targets[b[|BalancerTag("")|..]]
  }

  function Guarded(c: Routed, targets: map<Tag, Tag>): seq<Outbound> {
    [Outbound(DEFAULT_GUARD, BLACKHOLE)] + Retagged(c.outbounds, targets)
  }

  function Build(c: Routed, targets: map<Tag, Tag>): Option<Managed> {
    if !Accepted(c, targets) then None
    else
      Some(Managed([BalancedRule(FromApi, ToOutbound(API_TAG))] + Balanced(c.rules, targets)
                   + [BalancedRule(Always, Redirected(c.outbounds[0].tag, targets))],
                   Guarded(c, targets),
                   Selectors(targets)))
  }

  // ---------------------------------------------------------------------------------------------
  // The construction preserves the routing.

  lemma {:induction false} BalancedChooses(rules: seq<TaggedRule>, last: BalancedRule, targets: map<Tag, Tag>, f: Flow)
    requires last.condition == Always
    ensures ChosenTarget(Balanced(rules, targets) + [last], f) ==
            match Chosen(rules, f) case None => Some(last.target) case Some(tag) => Some(Redirected(tag, targets))
  {
    if rules != [] {
      BalancedChooses(rules[1..], last, targets, f);
      assert (Balanced(rules, targets) + [last])[1..] == Balanced(rules[1..], targets) + [last];
    }
  }

  lemma BalancerTagBack(t: Tag)
    ensures BalancerTag(t)[|BalancerTag("")|..] == t
  {
  }

  lemma TargetsApart(t: Tag, s: Tag, u: Tag, v: Tag)
    requires '@' !in t && '@' !in u && t + "@" <= s && u + "@" <= v && s <= v
    ensures t == u
  {
    assert s == t + ['@'] + s[|t| + 1..] && v == u + ['@'] + v[|u| + 1..];
    SameHead(t, s[|t| + 1..], u, v[|u| + 1..], '@');
  }

  lemma PlainTagApart(t: Tag, s: Tag, u: Tag)
    requires t + "@" <= s && '@' !in u
    ensures !(s <= u)
  {
    assert s[|t|] == (t + "@")[|t|] == '@';
  }

  // A selector is a prefix of exactly its own outbound's new tag.
  lemma SelectorIsExact(c: Routed, targets: map<Tag, Tag>, t: Tag, i: nat)
    requires Accepted(c, targets) && t in targets && i < |c.outbounds|
    ensures targets[t] <= Retagged(c.outbounds, targets)[i].tag <==> c.outbounds[i].tag == t
  {
    var u := c.outbounds[i].tag;
    assert t in Names(c) && u in Names(c);
    if u !in targets {
      PlainTagApart(t, targets[t], u);
    } else if targets[t] <= targets[u] {
      TargetsApart(t, targets[t], u, targets[u]);
    }
  }

  lemma {:induction false} SelectedOne(outbounds: seq<Outbound>, selector: Tag, k: nat)
    requires k < |outbounds| && forall i :: 0 <= i < |outbounds| ==> (selector <= outbounds[i].tag <==> i == k)
    ensures Selected(outbounds, selector) == [outbounds[k]]
  {
    if k > 0 {
      SelectedOne(outbounds[1..], selector, k - 1);
    } else {
      SelectedNone(outbounds[1..], selector);
    }
  }

  lemma {:induction false} SelectedNone(outbounds: seq<Outbound>, selector: Tag)
    requires forall i :: 0 <= i < |outbounds| ==> !(selector <= outbounds[i].tag)
    ensures Selected(outbounds, selector) == []
  {
    if outbounds != [] { SelectedNone(outbounds[1..], selector); }
  }

  lemma {:induction false} FindNone(outbounds: seq<Outbound>, tag: Tag)
    requires forall i :: 0 <= i < |outbounds| ==> outbounds[i].tag != tag
    ensures Find(outbounds, tag).None?
  {
    if outbounds != [] { FindNone(outbounds[1..], tag); }
  }

  lemma OwnHandlerSelected(c: Routed, targets: map<Tag, Tag>, k: nat)
    requires Accepted(c, targets) && k < |c.outbounds| && c.outbounds[k].tag in targets
    ensures Selected([Outbound(DEFAULT_GUARD, BLACKHOLE)] + Retagged(c.outbounds, targets), targets[c.outbounds[k].tag])
            == [Retagged(c.outbounds, targets)[k]]
  {
    var t, after := c.outbounds[k].tag, Retagged(c.outbounds, targets);
    PlainTagApart(t, targets[t], DEFAULT_GUARD);
    forall i | 0 <= i < |after| ensures targets[t] <= after[i].tag <==> i == k {
      SelectorIsExact(c, targets, t, i);
    }
    SelectedOne(after, targets[t], k);
    assert ([Outbound(DEFAULT_GUARD, BLACKHOLE)] + after)[1..] == after;
  }

  // A managed outbound is reached through its balancer, alone.
  lemma ManagedIsReached(c: Routed, targets: map<Tag, Tag>, k: nat)
    requires Accepted(c, targets) && k < |c.outbounds| && c.outbounds[k].tag in targets
    ensures var t := c.outbounds[k].tag; var m := Build(c, targets).value;
      && BalancerTag(t) in m.selectors
      && Selected(m.outbounds, m.selectors[BalancerTag(t)]) == [Retagged(c.outbounds, targets)[k]]
  {
    BalancerTagBack(c.outbounds[k].tag);
    OwnHandlerSelected(c, targets, k);
  }

  lemma SameTag(c: Routed, targets: map<Tag, Tag>, tag: Tag, i: nat)
    requires Accepted(c, targets) && tag !in targets && !Reserved(tag) && i < |c.outbounds|
    ensures Retagged(c.outbounds, targets)[i].tag == tag <==> c.outbounds[i].tag == tag
  {
    var u := c.outbounds[i].tag;
    if u in targets { PlainTagApart(u, targets[u], tag); }
  }

  // Behind the guard, whose tag is reserved, the search goes on as it would without it.
  lemma PastGuard(outbounds: seq<Outbound>, tag: Tag)
    requires !Reserved(tag)
    ensures Find([Outbound(DEFAULT_GUARD, BLACKHOLE)] + outbounds, tag) == Find(outbounds, tag)
  {
  }

  // Any other outbound keeps its tag, and the guard and the new tags are different ones.
  lemma PlainIsReached(c: Routed, targets: map<Tag, Tag>, k: nat)
    requires Accepted(c, targets) && k < |c.outbounds| && c.outbounds[k].tag !in targets
    ensures Body(Guarded(c, targets), c.outbounds[k].tag) == c.outbounds[k].body
  {
    var after, tag := Retagged(c.outbounds, targets), c.outbounds[k].tag;
    assert tag in Names(c);
    PastGuard(after, tag);
    forall i | 0 <= i < k ensures after[i].tag != after[k].tag {
      SameTag(c, targets, tag, i);
      assert c.outbounds[i].tag != c.outbounds[k].tag;
    }
    FindFirst(after, k);
  }

  lemma AbsentIsGuarded(c: Routed, targets: map<Tag, Tag>, tag: Tag)
    requires Accepted(c, targets) && tag !in targets.Values
    requires forall k :: 0 <= k < |c.outbounds| ==> c.outbounds[k].tag != tag
    ensures Body(Guarded(c, targets), tag) == BLACKHOLE
  {
    var after := Retagged(c.outbounds, targets);
    if tag != DEFAULT_GUARD {
      assert Find([Outbound(DEFAULT_GUARD, BLACKHOLE)] + after, tag) == Find(after, tag);
      forall i | 0 <= i < |after| ensures after[i].tag != tag {
        assert c.outbounds[i].tag in targets ==> targets[c.outbounds[i].tag] in targets.Values;
      }
      FindNone(after, tag);
    }
  }

  lemma GuardIsPlain()
    ensures '@' !in DEFAULT_GUARD
  {
  }

  // A tag that spells a generation finds the outbound that got it.
  lemma GenerationIsFound(c: Routed, targets: map<Tag, Tag>, k: nat)
    requires Accepted(c, targets) && k < |c.outbounds| && c.outbounds[k].tag in targets
    ensures Body(Guarded(c, targets), targets[c.outbounds[k].tag]) == c.outbounds[k].body
  {
    var after, t := Retagged(c.outbounds, targets), c.outbounds[k].tag;
    var tag := targets[t];
    GuardIsPlain();
    assert tag[|t|] == '@' && tag != DEFAULT_GUARD;
    assert Find([Outbound(DEFAULT_GUARD, BLACKHOLE)] + after, tag) == Find(after, tag);
    forall i | 0 <= i < k ensures after[i].tag != after[k].tag {
      var u := c.outbounds[i].tag;
      assert u != t && u in Names(c) && !Reserved(u);
      if u !in targets { assert u == after[i].tag && tag[|t|] in tag; }
    }
    FindFirst(after, k);
  }

  lemma OnePick(m: Managed, o: Outbound)
    requires m.outbounds != []
    ensures Picked(m, [o]) == {o.body}
  {
    assert [o][0] == o;
  }

  lemma ManagedBody(c: Routed, targets: map<Tag, Tag>, k: nat)
    requires Accepted(c, targets) && k < |c.outbounds| && c.outbounds[k].tag in targets
    ensures Bodies(Build(c, targets).value, ToBalancer(BalancerTag(c.outbounds[k].tag))) == {c.outbounds[k].body}
  {
    ManagedIsReached(c, targets, k);
    OnePick(Build(c, targets).value, Retagged(c.outbounds, targets)[k]);
  }

  lemma PlainBody(c: Routed, targets: map<Tag, Tag>, k: nat)
    requires Accepted(c, targets) && k < |c.outbounds| && c.outbounds[k].tag !in targets
    ensures Bodies(Build(c, targets).value, ToOutbound(c.outbounds[k].tag)) == {c.outbounds[k].body}
  {
    PlainIsReached(c, targets, k);
  }

  // The target a rule gets leads to the body of the outbound it named.
  lemma RedirectionKeepsBody(c: Routed, targets: map<Tag, Tag>, k: nat)
    requires Accepted(c, targets) && k < |c.outbounds|
    ensures Bodies(Build(c, targets).value, Redirected(c.outbounds[k].tag, targets)) == {c.outbounds[k].body}
  {
    if c.outbounds[k].tag in targets { ManagedBody(c, targets, k); } else { PlainBody(c, targets, k); }
  }

  lemma ManagedChooses(c: Routed, targets: map<Tag, Tag>, f: Flow)
    requires Accepted(c, targets) && !f.fromApi
    ensures ChosenTarget(Build(c, targets).value.rules, f) ==
            Some(Redirected(if Chosen(c.rules, f).Some? then Chosen(c.rules, f).value else c.outbounds[0].tag, targets))
  {
    var last := BalancedRule(Always, Redirected(c.outbounds[0].tag, targets));
    BalancedChooses(c.rules, last, targets, f);
    var rules := Build(c, targets).value.rules;
    assert rules[1..] == Balanced(c.rules, targets) + [last];
  }

  /** Every flow, outside the API inbound, reaches exactly the outbound it reached before, with the same settings; if
      its rule named an outbound that does not exist it now reaches only the guard, unless that name spells the new
      tag of an outbound, and then it reaches that one. */
  lemma RoutingIsPreserved(c: Routed, targets: map<Tag, Tag>, f: Flow)
    requires Build(c, targets).Some? && !f.fromApi
    ensures var m, chosen := Build(c, targets).value, Chosen(c.rules, f);
      && (chosen.None? || Find(c.outbounds, chosen.value).Some? ==> Reached(m, f) == {Route(c, f)})
      && (chosen.Some? && Find(c.outbounds, chosen.value).None? ==>
            && (chosen.value !in targets.Values ==> Reached(m, f) == {BLACKHOLE})
            && (forall k :: (0 <= k < |c.outbounds| && c.outbounds[k].tag in targets
                             && targets[c.outbounds[k].tag] == chosen.value) ==>
                  Reached(m, f) == {c.outbounds[k].body}))
  {
    ManagedChooses(c, targets, f);
    match Chosen(c.rules, f)
    case None => RedirectionKeepsBody(c, targets, 0);
    case Some(tag) =>
      if Find(c.outbounds, tag).Some? {
        var k := FindIndex(c.outbounds, tag);
        RedirectionKeepsBody(c, targets, k);
      } else {
        AbsentIsUnmanaged(c, targets, tag);
        if tag !in targets.Values { AbsentIsGuarded(c, targets, tag); }
        forall k | 0 <= k < |c.outbounds| && c.outbounds[k].tag in targets && targets[c.outbounds[k].tag] == tag
          ensures Body(Guarded(c, targets), tag) == c.outbounds[k].body
        {
          GenerationIsFound(c, targets, k);
        }
      }
  }

  lemma AbsentIsUnmanaged(c: Routed, targets: map<Tag, Tag>, tag: Tag)
    requires Accepted(c, targets) && Find(c.outbounds, tag).None?
    ensures tag !in targets && forall k :: 0 <= k < |c.outbounds| ==> c.outbounds[k].tag != tag
  {
    forall k | 0 <= k < |c.outbounds| ensures c.outbounds[k].tag != tag {
      FindFirst(c.outbounds, k);
    }
  }
}
