/**
 The generated core configuration (app/proxy_config_builder.py:96-171, 197-437) and how two of them differ when only
 keys changed.  Ports, log settings and the bodies of inbounds follow from the options and are left to the spelling.
 */
module ConfigBuilder {
  import opened RuntimeModel

  datatype Protocol = Vmess | Shadowsocks | Vless | Vless2 | Trojan | Hysteria2

  function Name(p: Protocol): string {
    match p
    case Vmess => "vmess"
    case Shadowsocks => "shadowsocks"
    case Vless => "vless"
    case Vless2 => "vless2"
    case Trojan => "trojan"
    case Hysteria2 => "hysteria2"
  }

  // A reserved slot without a key blocks its traffic.
  datatype Slot = Absent | Disabled | Filled(key: string)

  datatype Entrance = Socks(p: Protocol) | Transparent(p: Protocol) | Tproxy(p: Protocol)

  datatype Inbound = Inbound(entrance: Entrance, routeOnly: bool)

  datatype Condition = Everything | Domains(list: seq<string>) | Addresses(list: seq<string>, ports: string)
                     | TcpDomains(list: seq<string>) | Bittorrent | AnyPort

  datatype Rule = Rule(from: seq<Entrance>, condition: Condition, to: Tag)

  datatype Policy = Policy(domains: seq<string>, addresses: seq<string>, ports: string)

  datatype Options = Options(vmessTransparent: bool, tproxy: bool, tproxyPorts: set<Protocol>, routeOnly: set<Protocol>,
                             routeOnlyTproxy: set<Protocol>, strict: map<Protocol, Policy>,
                             overrides: map<Protocol, seq<string>>,
                             bittorrent: bool, connectivity: seq<string>)

  // The lists under construction, and the entrances of sniffed and of redirected traffic.
  datatype Draft = Draft(inbounds: seq<Inbound>, outbounds: seq<Outbound>, rules: seq<Rule>,
                         transparent: seq<Entrance>, tproxied: seq<Entrance>)

  type Slots = map<Protocol, Slot>

  const BUILD_ORDER := [Vmess, Shadowsocks, Vless, Vless2, Trojan, Hysteria2]
  const TPROXY_ORDER := [Shadowsocks, Hysteria2, Vmess, Vless, Vless2, Trojan]
  const OVERRIDE_ORDER := [Shadowsocks, Vmess, Vless, Vless2, Trojan, Hysteria2]
  const BLOCK := "blackhole"
  const DIRECT := Outbound("direct", "freedom")

  function At(slots: Slots, p: Protocol): Slot {
    if p in slots then slots[p] else Absent
  }

  // What the configuration needs to know of a key: the outbound it spells.
  function OutboundOf(spell: (Protocol, string) -> string, p: Protocol, slot: Slot): Outbound {
    Outbound(LogicalTag(Name(p)), if slot.Filled? then spell(p, slot.key) else BLOCK)
  }

  predicate HasTransparent(o: Options, p: Protocol) {
    p == Vless || p == Vless2 || p == Hysteria2 || (p == Vmess && o.vmessTransparent)
  }

  function ConfirmedRules(p: Protocol, policy: Policy): seq<Rule> {
    (if policy.domains == [] then [] else [Rule([Transparent(p)], Domains(policy.domains), LogicalTag(Name(p)))])
    + (if policy.addresses == [] then []
       else [Rule([Transparent(p)], Addresses(policy.addresses, policy.ports), LogicalTag(Name(p)))])
    + [Rule([Transparent(p)], Everything, "direct")]
  }

  function TransparentRules(o: Options, p: Protocol): seq<Rule> {
    if p in o.strict then ConfirmedRules(p, o.strict[p]) else [Rule([Transparent(p)], Everything, LogicalTag(Name(p)))]
  }

  function AddProxy(d: Draft, o: Options, spell: (Protocol, string) -> string, p: Protocol, slot: Slot): Draft {
    if slot.Absent? then d
    else
      var sniffs := HasTransparent(o, p);
      Draft(d.inbounds + [Inbound(Socks(p), false)]
            + (if sniffs then [Inbound(Transparent(p), p in o.routeOnly)] else []),
            d.outbounds + [OutboundOf(spell, p, slot)],
            d.rules + [Rule([Socks(p)], Everything, LogicalTag(Name(p)))]
            + (if sniffs then TransparentRules(o, p) else []),
            if sniffs then d.transparent + [Transparent(p)] else d.transparent, d.tproxied)
  }

  function AddTproxy(d: Draft, o: Options, p: Protocol, slot: Slot): Draft {
    if slot.Absent? || p !in o.tproxyPorts then d
    else
      d.(inbounds := d.inbounds + [Inbound(Tproxy(p), p in o.routeOnlyTproxy)],
         rules := d.rules + [Rule([Tproxy(p)], Everything, LogicalTag(Name(p)))],
         tproxied := d.tproxied + [Tproxy(p)])
  }

  function AddProxies(d: Draft, o: Options, spell: (Protocol, string) -> string, order: seq<Protocol>,
                      slots: Slots): Draft
  {
    if order == [] then d
    else
      var p := order[|order| - 1];
      AddProxy(AddProxies(d, o, spell, order[..|order| - 1], slots), o, spell, p, At(slots, p))
  }

  function AddTproxies(d: Draft, o: Options, order: seq<Protocol>, slots: Slots): Draft {
    if order == [] then d
    else
      var p := order[|order| - 1];
      AddTproxy(AddTproxies(d, o, order[..|order| - 1], slots), o, p, At(slots, p))
  }

  // Hostnames that correct an overlap of the address sets, for the outbounds that exist.
  function OverrideRules(d: Draft, o: Options, order: seq<Protocol>): seq<Rule> {
    if order == [] then []
    else
      var p := order[|order| - 1];
      OverrideRules(d, o, order[..|order| - 1])
      + if p in o.overrides && o.overrides[p] != [] && LogicalTag(Name(p)) in Tags(d.outbounds)
        then [Rule(d.transparent, TcpDomains(o.overrides[p]), LogicalTag(Name(p)))] else []
  }

  function Corrected(d: Draft, o: Options): Draft {
    if d.transparent == [] then d else d.(rules := OverrideRules(d, o, OVERRIDE_ORDER) + d.rules)
  }

  function TorrentsDirect(d: Draft, o: Options): Draft {
    var from := d.transparent + d.tproxied;
    if !o.bittorrent || from == [] then d else d.(rules := [Rule(from, Bittorrent, "direct")] + d.rules)
  }

  function RestDirect(d: Draft, o: Options): Draft {
    if d.outbounds == [] then d
    else
      d.(outbounds := d.outbounds + [DIRECT],
         rules := (if o.connectivity == [] then [] else [Rule([], Domains(o.connectivity), "direct")])
                  + d.rules + [Rule([], AnyPort, "direct")])
  }

  function Finished(d: Draft, o: Options): Draft {
    RestDirect(TorrentsDirect(Corrected(d, o), o), o)
  }

  const NOTHING := Draft([], [], [], [], [])

  function Build(o: Options, spell: (Protocol, string) -> string, slots: Slots): Draft {
    var d := AddProxies(NOTHING, o, spell, BUILD_ORDER, slots);
    Finished(if o.tproxy then AddTproxies(d, o, TPROXY_ORDER, slots) else d, o)
  }

  /** The configuration under construction; every step appends to its lists or inserts at their front. */
  class Builder {
    var inbounds: seq<Inbound>
    var outbounds: seq<Outbound>
    var rules: seq<Rule>
    var transparent: seq<Entrance>
    var tproxied: seq<Entrance>

    ghost function Contents(): Draft
      reads this
    {
      Draft(inbounds, outbounds, rules, transparent, tproxied)
    }

    constructor ()
      ensures Contents() == NOTHING
    {
      inbounds, outbounds, rules, transparent, tproxied := [], [], [], [], [];
    }

    method Proxy(o: Options, spell: (Protocol, string) -> string, p: Protocol, slot: Slot)
      modifies this
      ensures Contents() == AddProxy(old(Contents()), o, spell, p, slot)
    {
      if slot.Absent? { return; }
      inbounds := inbounds + [Inbound(Socks(p), false)];
      if HasTransparent(o, p) { inbounds := inbounds + [Inbound(Transparent(p), p in o.routeOnly)]; }
      outbounds := outbounds + [OutboundOf(spell, p, slot)];
      rules := rules + [Rule([Socks(p)], Everything, LogicalTag(Name(p)))];
      if HasTransparent(o, p) {
        rules := rules + TransparentRules(o, p);
        transparent := transparent + [Transparent(p)];
      }
    }

    method TproxyRoute(o: Options, p: Protocol, slot: Slot)
      modifies this
      ensures Contents() == AddTproxy(old(Contents()), o, p, slot)
    {
      if slot.Absent? || p !in o.tproxyPorts { return; }
      inbounds := inbounds + [Inbound(Tproxy(p), p in o.routeOnlyTproxy)];
      rules := rules + [Rule([Tproxy(p)], Everything, LogicalTag(Name(p)))];
      tproxied := tproxied + [Tproxy(p)];
    }

    method Finish(o: Options)
      modifies this`rules, this`outbounds
      ensures Contents() == Finished(old(Contents()), o)
    {
      if transparent != [] {
        var corrections: seq<Rule> := [];
        for i := 0 to |OVERRIDE_ORDER|
          invariant outbounds == old(outbounds) && rules == old(rules)
          invariant corrections == OverrideRules(Contents(), o, OVERRIDE_ORDER[..i])
        {
          assert OVERRIDE_ORDER[..i + 1][..i] == OVERRIDE_ORDER[..i];
          var p := OVERRIDE_ORDER[i];
          if p in o.overrides && o.overrides[p] != [] && LogicalTag(Name(p)) in Tags(outbounds) {
            corrections := corrections + [Rule(transparent, TcpDomains(o.overrides[p]), LogicalTag(Name(p)))];
          }
        }
        assert OVERRIDE_ORDER[..|OVERRIDE_ORDER|] == OVERRIDE_ORDER;
        rules := corrections + rules;
      }
      if o.bittorrent && transparent + tproxied != [] {
        rules := [Rule(transparent + tproxied, Bittorrent, "direct")] + rules;
      }
      if outbounds != [] {
        outbounds := outbounds + [DIRECT];
        if o.connectivity != [] { rules := [Rule([], Domains(o.connectivity), "direct")] + rules; }
        rules := rules + [Rule([], AnyPort, "direct")];
      }
    }

    method BuildProxyCoreConfig(o: Options, spell: (Protocol, string) -> string, slots: Slots)
      requires Contents() == NOTHING
      modifies this
      ensures Contents() == Build(o, spell, slots)
    {
      for i := 0 to |BUILD_ORDER|
        invariant Contents() == AddProxies(NOTHING, o, spell, BUILD_ORDER[..i], slots)
      {
        assert BUILD_ORDER[..i + 1][..i] == BUILD_ORDER[..i];
        Proxy(o, spell, BUILD_ORDER[i], At(slots, BUILD_ORDER[i]));
      }
      assert BUILD_ORDER[..|BUILD_ORDER|] == BUILD_ORDER;
      ghost var proxied := Contents();
      if o.tproxy {
        for i := 0 to |TPROXY_ORDER|
          invariant Contents() == AddTproxies(proxied, o, TPROXY_ORDER[..i], slots)
        {
          assert TPROXY_ORDER[..i + 1][..i] == TPROXY_ORDER[..i];
          TproxyRoute(o, TPROXY_ORDER[i], At(slots, TPROXY_ORDER[i]));
        }
        assert TPROXY_ORDER[..|TPROXY_ORDER|] == TPROXY_ORDER;
      }
      Finish(o);
    }
  }

  // An empty key means no handler, or a blocking one if slots are reserved.
  function SlotsFor(keys: map<Protocol, string>, reserve: bool): Slots {
    map p: Protocol | p in {Vmess, Shadowsocks, Vless, Vless2, Trojan, Hysteria2} ::
      if p in keys && keys[p] != "" then Filled(keys[p]) else if reserve then Disabled else Absent
  }

  // ---------------------------------------------------------------------------------------------
  // Two drafts with the same handlers present.

  ghost predicate SamePresence(a: Slots, b: Slots) {
    forall p :: At(a, p).Absent? <==> At(b, p).Absent?
  }

  // Equal except for the outbounds' bodies.
  ghost predicate Alike(d: Draft, e: Draft) {
    && d.inbounds == e.inbounds && d.rules == e.rules && d.transparent == e.transparent && d.tproxied == e.tproxied
    && Tags(d.outbounds) == Tags(e.outbounds)
  }

  lemma TagsAppend(outbounds: seq<Outbound>, o: Outbound)
    ensures Tags(outbounds + [o]) == Tags(outbounds) + [o.tag]
  {
  }

  lemma {:induction false} ProxiesAlike(o: Options, spell: (Protocol, string) -> string, order: seq<Protocol>,
                                        a: Slots, b: Slots)
    requires SamePresence(a, b)
    ensures Alike(AddProxies(NOTHING, o, spell, order, a), AddProxies(NOTHING, o, spell, order, b))
  {
    if order != [] {
      var front, p := order[..|order| - 1], order[|order| - 1];
      ProxiesAlike(o, spell, front, a, b);
      var d, e := AddProxies(NOTHING, o, spell, front, a), AddProxies(NOTHING, o, spell, front, b);
      assert At(a, p).Absent? <==> At(b, p).Absent?;
      TagsAppend(d.outbounds, OutboundOf(spell, p, At(a, p)));
      TagsAppend(e.outbounds, OutboundOf(spell, p, At(b, p)));
    }
  }

  lemma {:induction false} TproxiesAlike(d: Draft, e: Draft, o: Options, order: seq<Protocol>, a: Slots, b: Slots)
    requires SamePresence(a, b) && Alike(d, e)
    ensures Alike(AddTproxies(d, o, order, a), AddTproxies(e, o, order, b))
    ensures AddTproxies(d, o, order, a).outbounds == d.outbounds
  {
    if order != [] {
      TproxiesAlike(d, e, o, order[..|order| - 1], a, b);
      assert At(a, order[|order| - 1]).Absent? <==> At(b, order[|order| - 1]).Absent?;
    }
  }

  lemma {:induction false} OverridesAlike(d: Draft, e: Draft, o: Options, order: seq<Protocol>)
    requires Alike(d, e)
    ensures OverrideRules(d, o, order) == OverrideRules(e, o, order)
  {
    if order != [] { OverridesAlike(d, e, o, order[..|order| - 1]); }
  }

  lemma FinishedAlike(d: Draft, e: Draft, o: Options)
    requires Alike(d, e)
    ensures Alike(Finished(d, o), Finished(e, o))
  {
    OverridesAlike(d, e, o, OVERRIDE_ORDER);
    TagsAppend(d.outbounds, DIRECT);
    TagsAppend(e.outbounds, DIRECT);
  }

  lemma BuildsAlike(o: Options, spell: (Protocol, string) -> string, a: Slots, b: Slots)
    requires SamePresence(a, b)
    ensures Alike(Build(o, spell, a), Build(o, spell, b))
  {
    ProxiesAlike(o, spell, BUILD_ORDER, a, b);
    var d, e := AddProxies(NOTHING, o, spell, BUILD_ORDER, a), AddProxies(NOTHING, o, spell, BUILD_ORDER, b);
    TproxiesAlike(d, e, o, TPROXY_ORDER, a, b);
    FinishedAlike(d, e, o);
    FinishedAlike(AddTproxies(d, o, TPROXY_ORDER, a), AddTproxies(e, o, TPROXY_ORDER, b), o);
  }

  /** A protocol's slot is filled exactly by a key that is not empty, and blocks its traffic exactly if it is reserved
      without one. */
  lemma SlotsMean(keys: map<Protocol, string>, reserve: bool, p: Protocol)
    ensures var slot := At(SlotsFor(keys, reserve), p);
      && (forall key :: slot == Filled(key) <==> key != "" && p in keys && keys[p] == key)
      && (slot.Disabled? <==> reserve && (p !in keys || keys[p] == ""))
  {
  }

  // ---------------------------------------------------------------------------------------------
  // Which entrances there are.

  // The entrance belongs to a protocol that is there, and its kind is one that the options give the protocol.
  predicate Opens(o: Options, slots: Slots, e: Entrance) {
    && !At(slots, e.p).Absent?
    && match e
       case Socks(_) => true
       case Transparent(p) => p in {Vless, Vless2, Hysteria2} || (p == Vmess && o.vmessTransparent)
       case Tproxy(p) => o.tproxy && p in o.tproxyPorts
  }

  predicate RoutesOnly(o: Options, e: Entrance) {
    match e case Socks(_) => false case Transparent(p) => p in o.routeOnly case Tproxy(p) => p in o.routeOnlyTproxy
  }

  lemma {:induction false} ProxyEntrances(o: Options, spell: (Protocol, string) -> string, order: seq<Protocol>,
                                          slots: Slots, x: Inbound)
    ensures x in AddProxies(NOTHING, o, spell, order, slots).inbounds <==>
              && x.entrance.p in order && !x.entrance.Tproxy? && Opens(o, slots, x.entrance)
              && x.routeOnly == RoutesOnly(o, x.entrance)
  {
    if order != [] {
      var front, p := order[..|order| - 1], order[|order| - 1];
      assert order == front + [p];
      ProxyEntrances(o, spell, front, slots, x);
    }
  }

  lemma {:induction false} TproxyEntrances(d: Draft, o: Options, order: seq<Protocol>, slots: Slots, x: Inbound)
    requires o.tproxy
    ensures x in AddTproxies(d, o, order, slots).inbounds <==>
              || x in d.inbounds
              || (x.entrance.p in order && x.entrance.Tproxy? && Opens(o, slots, x.entrance)
                  && x.routeOnly == RoutesOnly(o, x.entrance))
  {
    if order != [] {
      var front, p := order[..|order| - 1], order[|order| - 1];
      assert order == front + [p];
      TproxyEntrances(d, o, front, slots, x);
    }
  }

  lemma Ordered(p: Protocol)
    ensures p in BUILD_ORDER && p in TPROXY_ORDER && p in OVERRIDE_ORDER
  {
    match p
    case Vmess => assert BUILD_ORDER[0] == p && TPROXY_ORDER[2] == p && OVERRIDE_ORDER[1] == p;
    case Shadowsocks => assert BUILD_ORDER[1] == p && TPROXY_ORDER[0] == p && OVERRIDE_ORDER[0] == p;
    case Vless => assert BUILD_ORDER[2] == p && TPROXY_ORDER[3] == p && OVERRIDE_ORDER[2] == p;
    case Vless2 => assert BUILD_ORDER[3] == p && TPROXY_ORDER[4] == p && OVERRIDE_ORDER[3] == p;
    case Trojan => assert BUILD_ORDER[4] == p && TPROXY_ORDER[5] == p && OVERRIDE_ORDER[4] == p;
    case Hysteria2 => assert BUILD_ORDER[5] == p && TPROXY_ORDER[1] == p && OVERRIDE_ORDER[5] == p;
  }

  /** The built configuration has exactly these entrances: SOCKS for every protocol that is there, redirected ports
      where the options have them, and transparent ones for four protocols; sniffing is for routing alone where they
      say so. */
  lemma EntrancesExactly(o: Options, spell: (Protocol, string) -> string, slots: Slots, x: Inbound)
    ensures x in Build(o, spell, slots).inbounds <==>
              Opens(o, slots, x.entrance) && x.routeOnly == RoutesOnly(o, x.entrance)
  {
    var d := AddProxies(NOTHING, o, spell, BUILD_ORDER, slots);
    Ordered(x.entrance.p);
    ProxyEntrances(o, spell, BUILD_ORDER, slots, x);
    if o.tproxy { TproxyEntrances(d, o, TPROXY_ORDER, slots, x); }
  }

  // ---------------------------------------------------------------------------------------------
  // No rule has an empty list of names or addresses, which would hold for every flow.

  predicate Listed(c: Condition) {
    match c
    case Domains(list) => list != []
    case Addresses(list, _) => list != []
    case TcpDomains(list) => list != []
    case _ => true
  }

  ghost predicate AllListed(rules: seq<Rule>) {
    forall r :: r in rules ==> Listed(r.condition)
  }

  lemma {:induction false} ProxiesListed(o: Options, spell: (Protocol, string) -> string, order: seq<Protocol>,
                                         slots: Slots)
    ensures AllListed(AddProxies(NOTHING, o, spell, order, slots).rules)
  {
    if order != [] { ProxiesListed(o, spell, order[..|order| - 1], slots); }
  }

  lemma {:induction false} TproxiesListed(d: Draft, o: Options, order: seq<Protocol>, slots: Slots)
    requires AllListed(d.rules)
    ensures AllListed(AddTproxies(d, o, order, slots).rules)
  {
    if order != [] { TproxiesListed(d, o, order[..|order| - 1], slots); }
  }

  lemma {:induction false} OverridesListed(d: Draft, o: Options, order: seq<Protocol>)
    ensures AllListed(OverrideRules(d, o, order))
  {
    if order != [] { OverridesListed(d, o, order[..|order| - 1]); }
  }

  /** Whatever lists the options leave empty, no rule of the built configuration has an empty one. */
  lemma RulesAreListed(o: Options, spell: (Protocol, string) -> string, slots: Slots)
    ensures AllListed(Build(o, spell, slots).rules)
  {
    var d := AddProxies(NOTHING, o, spell, BUILD_ORDER, slots);
    ProxiesListed(o, spell, BUILD_ORDER, slots);
    TproxiesListed(d, o, TPROXY_ORDER, slots);
    OverridesListed(if o.tproxy then AddTproxies(d, o, TPROXY_ORDER, slots) else d, o, OVERRIDE_ORDER);
  }

  // ---------------------------------------------------------------------------------------------
  // Which rules name a protocol's SOCKS entrance.

  function OwnRule(p: Protocol): Rule {
    Rule([Socks(p)], Everything, LogicalTag(Name(p)))
  }

  // No other rule names the entrance, and its own is there exactly if the protocol was added.
  ghost predicate SocksRouted(d: Draft, p: Protocol, added: bool) {
    && (forall r :: r in d.rules && Socks(p) in r.from ==> r == OwnRule(p))
    && (OwnRule(p) in d.rules <==> added)
    && Socks(p) !in d.transparent && Socks(p) !in d.tproxied
  }

  lemma {:induction false} ProxiesRouteSocks(o: Options, spell: (Protocol, string) -> string, order: seq<Protocol>,
                                             slots: Slots, p: Protocol)
    ensures SocksRouted(AddProxies(NOTHING, o, spell, order, slots), p, p in order && !At(slots, p).Absent?)
  {
    if order != [] {
      var front, q := order[..|order| - 1], order[|order| - 1];
      ProxiesRouteSocks(o, spell, front, slots, p);
      var d := AddProxies(NOTHING, o, spell, front, slots);
      assert order == front + [q];
      AddedRules(d, o, spell, q, At(slots, q), p);
    }
  }

  lemma AddedRules(d: Draft, o: Options, spell: (Protocol, string) -> string, q: Protocol, slot: Slot, p: Protocol)
    ensures forall r :: r in AddProxy(d, o, spell, q, slot).rules && r !in d.rules && Socks(p) in r.from ==>
              p == q && r == OwnRule(q)
    ensures !slot.Absent? ==> OwnRule(q) in AddProxy(d, o, spell, q, slot).rules
    ensures forall r :: r in d.rules ==> r in AddProxy(d, o, spell, q, slot).rules
  {
    assert forall r :: r in TransparentRules(o, q) ==> r.from == [Transparent(q)];
  }

  lemma {:induction false} TproxiesRouteSocks(d: Draft, o: Options, order: seq<Protocol>, slots: Slots, p: Protocol,
                                              added: bool)
    requires SocksRouted(d, p, added)
    ensures SocksRouted(AddTproxies(d, o, order, slots), p, added)
  {
    if order != [] { TproxiesRouteSocks(d, o, order[..|order| - 1], slots, p, added); }
  }

  lemma {:induction false} OverridesFrom(d: Draft, o: Options, order: seq<Protocol>)
    ensures forall r :: r in OverrideRules(d, o, order) ==> r.from == d.transparent
  {
    if order != [] { OverridesFrom(d, o, order[..|order| - 1]); }
  }

  /** In the finished configuration no rule but its own names a protocol's SOCKS entrance, and that one is there exactly
      if the protocol has a handler. */
  lemma OwnRuleNamesSocks(o: Options, spell: (Protocol, string) -> string, slots: Slots, p: Protocol)
    ensures SocksRouted(Build(o, spell, slots), p, !At(slots, p).Absent?)
  {
    ProxiesRouteSocks(o, spell, BUILD_ORDER, slots, p);
    assert p in BUILD_ORDER;
    var d := AddProxies(NOTHING, o, spell, BUILD_ORDER, slots);
    TproxiesRouteSocks(d, o, TPROXY_ORDER, slots, p, !At(slots, p).Absent?);
    FinishRoutesSocks(if o.tproxy then AddTproxies(d, o, TPROXY_ORDER, slots) else d, o, p, !At(slots, p).Absent?);
  }

  // More rules that do not name the entrance.
  lemma MoreRules(d: Draft, before: seq<Rule>, after: seq<Rule>, p: Protocol, added: bool)
    requires SocksRouted(d, p, added) && forall r :: r in before + after ==> Socks(p) !in r.from
    ensures SocksRouted(d.(rules := before + d.rules + after), p, added)
  {
  }

  lemma FinishRoutesSocks(d: Draft, o: Options, p: Protocol, added: bool)
    requires SocksRouted(d, p, added)
    ensures SocksRouted(Finished(d, o), p, added)
  {
    OverridesFrom(d, o, OVERRIDE_ORDER);
    MoreRules(d, OverrideRules(d, o, OVERRIDE_ORDER), [], p, added);
    var d1 := Corrected(d, o);
    assert SocksRouted(d1, p, added) by {
      assert OverrideRules(d, o, OVERRIDE_ORDER) + d.rules + [] == OverrideRules(d, o, OVERRIDE_ORDER) + d.rules;
    }
    var torrents := [Rule(d1.transparent + d1.tproxied, Bittorrent, "direct")];
    MoreRules(d1, torrents, [], p, added);
    var d2 := TorrentsDirect(d1, o);
    assert SocksRouted(d2, p, added) by { assert torrents + d1.rules + [] == torrents + d1.rules; }
    MoreRules(d2, if o.connectivity == [] then [] else [Rule([], Domains(o.connectivity), "direct")],
              [Rule([], AnyPort, "direct")], p, added);
  }

  // ---------------------------------------------------------------------------------------------
  // The handlers of a configuration.

  function Handlers(spell: (Protocol, string) -> string, order: seq<Protocol>, slots: Slots): seq<Outbound> {
    if order == [] then []
    else
      var p := order[|order| - 1];
      Handlers(spell, order[..|order| - 1], slots) + if At(slots, p).Absent? then []
                                                     else [OutboundOf(spell, p, At(slots, p))]
  }

  lemma {:induction false} ProxyHandlers(o: Options, spell: (Protocol, string) -> string, order: seq<Protocol>,
                                         slots: Slots)
    ensures AddProxies(NOTHING, o, spell, order, slots).outbounds == Handlers(spell, order, slots)
  {
    if order != [] { ProxyHandlers(o, spell, order[..|order| - 1], slots); }
  }

  lemma BuiltHandlers(o: Options, spell: (Protocol, string) -> string, slots: Slots)
    ensures var handlers := Handlers(spell, BUILD_ORDER, slots);
      Build(o, spell, slots).outbounds == if handlers == [] then [] else handlers + [DIRECT]
  {
    ProxyHandlers(o, spell, BUILD_ORDER, slots);
    var d := AddProxies(NOTHING, o, spell, BUILD_ORDER, slots);
    TproxiesAlike(d, d, o, TPROXY_ORDER, slots, slots);
  }

  lemma {:induction false} HandlerTags(spell: (Protocol, string) -> string, order: seq<Protocol>, slots: Slots,
                                       p: Protocol)
    ensures LogicalTag(Name(p)) in Tags(Handlers(spell, order, slots)) <==> p in order && !At(slots, p).Absent?
  {
    if order != [] {
      var front, q := order[..|order| - 1], order[|order| - 1];
      HandlerTags(spell, front, slots, p);
      var before := Handlers(spell, front, slots);
      TagsAppend(before, OutboundOf(spell, q, At(slots, q)));
      TagsDiffer(p, q);
      assert Handlers(spell, order, slots) == if At(slots, q).Absent? then before
                                              else before + [OutboundOf(spell, q, At(slots, q))];
    }
  }

  lemma {:induction false} NoHandlers(spell: (Protocol, string) -> string, order: seq<Protocol>, slots: Slots)
    requires forall p :: At(slots, p).Absent?
    ensures Handlers(spell, order, slots) == []
  {
    if order != [] { NoHandlers(spell, order[..|order| - 1], slots); }
  }

  lemma TagsDiffer(p: Protocol, q: Protocol)
    ensures LogicalTag(Name(p)) == LogicalTag(Name(q)) <==> p == q
    ensures LogicalTag(Name(p)) != "direct"
  {
    assert LogicalTag(Name(p))[6..] == Name(p) && LogicalTag(Name(q))[6..] == Name(q);
    assert LogicalTag(Name(p))[0] == 'p' && "direct"[0] == 'd';
  }

  lemma PresentTags(o: Options, spell: (Protocol, string) -> string, slots: Slots, p: Protocol)
    ensures LogicalTag(Name(p)) in Tags(Build(o, spell, slots).outbounds) <==> !At(slots, p).Absent?
  {
    var handlers := Handlers(spell, BUILD_ORDER, slots);
    BuiltHandlers(o, spell, slots);
    HandlerTags(spell, BUILD_ORDER, slots, p);
    TagsAppend(handlers, DIRECT);
    TagsDiffer(p, p);
    assert p in BUILD_ORDER;
  }
}
