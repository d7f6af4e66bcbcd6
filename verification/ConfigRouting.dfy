/**
 Where the generated configuration takes a flow: the core walks the rules and the first one that applies decides, a rule
 without entrances applying to all of them.  The catch-all rule at the end keeps it from looking up addresses for a
 second walk (app/proxy_config_builder.py:23-26, 425-431).
 */
module ConfigRouting {
  import opened Wrappers
  import opened RuntimeModel
  import opened ConfigBuilder

  // A flow: its entrance, and which entries of the lists match its destination.
  datatype Flow = Flow(entrance: Entrance, names: set<string>, addresses: set<string>, ports: set<string>, tcp: bool,
                       torrent: bool)

  predicate Hits(entries: seq<string>, matching: set<string>) {
    exists e :: e in entries && e in matching
  }

  predicate Meets(f: Flow, c: Condition) {
    match c
    case Everything => true
    case Domains(list) => Hits(list, f.names)
    case Addresses(list, ports) => Hits(list, f.addresses) && (ports == "" || ports in f.ports)
    case TcpDomains(list) => f.tcp && Hits(list, f.names)
    case Bittorrent => f.torrent
    case AnyPort => true
  }

  predicate Applies(r: Rule, f: Flow) {
    (r.from == [] || f.entrance in r.from) && Meets(f, r.condition)
  }

  function Deciding(rules: seq<Rule>, f: Flow): Option<Rule> {
    if rules == [] then None else if Applies(rules[0], f) then Some(rules[0]) else Deciding(rules[1..], f)
  }

  function Target(rules: seq<Rule>, f: Flow): Option<Tag> {
    var r := Deciding(rules, f);
    if r.Some? then Some(r.value.to) else None
  }

  function OrElse(a: Option<Rule>, b: Option<Rule>): Option<Rule> {
    if a.Some? then a else b
  }

  lemma {:induction false} DecidingAppend(a: seq<Rule>, b: seq<Rule>, f: Flow)
    ensures Deciding(a + b, f) == OrElse(Deciding(a, f), Deciding(b, f))
  {
    if a == [] {
      assert a + b == b;
    } else {
      assert (a + b)[1..] == a[1..] + b;
      DecidingAppend(a[1..], b, f);
    }
  }

  lemma DecidingOne(r: Rule, f: Flow)
    ensures Deciding([r], f) == if Applies(r, f) then Some(r) else None
  {
  }

  // ---------------------------------------------------------------------------------------------
  // What the options promise, without regard to the order in which rules are built.

  predicate Present(slots: Slots, p: Protocol) {
    !At(slots, p).Absent?
  }

  ghost predicate Occupied(slots: Slots) {
    exists p :: Present(slots, p)
  }

  // The entrances that a configuration has.
  predicate Entered(o: Options, slots: Slots, e: Entrance) {
    && Present(slots, e.p)
    && (e.Transparent? ==> HasTransparent(o, e.p))
    && (e.Tproxy? ==> o.tproxy && e.p in o.tproxyPorts)
  }

  // A strict protocol takes only what its policy lists.
  predicate Wanted(o: Options, f: Flow) {
    f.entrance.Transparent? && f.entrance.p in o.strict ==>
      var policy := o.strict[f.entrance.p];
      Hits(policy.domains, f.names)
      || (Hits(policy.addresses, f.addresses) && (policy.ports == "" || policy.ports in f.ports))
  }

  // The first present protocol whose correction lists the flow's name.
  function Corrector(o: Options, slots: Slots, order: seq<Protocol>, f: Flow): Option<Protocol> {
    if order == [] then None
    else if order[0] in o.overrides && Hits(o.overrides[order[0]], f.names) && Present(slots, order[0]) then
      Some(order[0])
    else Corrector(o, slots, order[1..], f)
  }

  ghost function Destination(o: Options, slots: Slots, f: Flow): Option<Tag> {
    if !Occupied(slots) then None
    else if Hits(o.connectivity, f.names) || !Entered(o, slots, f.entrance) then Some("direct")
    else if o.bittorrent && f.torrent && !f.entrance.Socks? then Some("direct")
    else
      var q := if f.tcp && f.entrance.Transparent? then Corrector(o, slots, OVERRIDE_ORDER, f) else None;
      if q.Some? then Some(LogicalTag(Name(q.value)))
      else if Wanted(o, f) then Some(LogicalTag(Name(f.entrance.p))) else Some("direct")
  }

  // ---------------------------------------------------------------------------------------------
  // What each part of the rules decides.

  // What a protocol's own rules decide.
  function OwnDecision(o: Options, f: Flow): Rule {
    var e := f.entrance;
    var tag := LogicalTag(Name(e.p));
    if !e.Transparent? || e.p !in o.strict then Rule([e], Everything, tag)
    else
      var policy := o.strict[e.p];
      if Hits(policy.domains, f.names) then Rule([e], Domains(policy.domains), tag)
      else if Hits(policy.addresses, f.addresses) && (policy.ports == "" || policy.ports in f.ports)
      then Rule([e], Addresses(policy.addresses, policy.ports), tag)
      else Rule([e], Everything, "direct")
  }

  function Decision(decides: bool, r: Rule): Option<Rule> {
    if decides then Some(r) else None
  }

  lemma TransparentDecides(o: Options, p: Protocol, f: Flow)
    ensures Deciding(TransparentRules(o, p), f) == Decision(f.entrance == Transparent(p), OwnDecision(o, f))
  {
    if p in o.strict {
      var policy := o.strict[p];
      var tag := LogicalTag(Name(p));
      var names := if policy.domains == [] then [] else [Rule([Transparent(p)], Domains(policy.domains), tag)];
      var addresses := if policy.addresses == [] then []
                       else [Rule([Transparent(p)], Addresses(policy.addresses, policy.ports), tag)];
      DecidingAppend(names + addresses, [Rule([Transparent(p)], Everything, "direct")], f);
      DecidingAppend(names, addresses, f);
    }
  }

  lemma ProxyDecides(d: Draft, o: Options, spell: (Protocol, string) -> string, q: Protocol, slot: Slot, f: Flow)
    ensures Deciding(AddProxy(d, o, spell, q, slot).rules, f)
         == OrElse(Deciding(d.rules, f),
                   Decision(!slot.Absent?
                            && (f.entrance == Socks(q) || (f.entrance == Transparent(q) && HasTransparent(o, q))),
                            OwnDecision(o, f)))
  {
    var own := [Rule([Socks(q)], Everything, LogicalTag(Name(q)))];
    DecidingAppend(d.rules + own, if HasTransparent(o, q) then TransparentRules(o, q) else [], f);
    DecidingAppend(d.rules, own, f);
    DecidingOne(own[0], f);
    TransparentDecides(o, q, f);
  }

  lemma {:induction false} ProxiesDecide(o: Options, spell: (Protocol, string) -> string, order: seq<Protocol>,
                                         slots: Slots, f: Flow)
    ensures Deciding(AddProxies(NOTHING, o, spell, order, slots).rules, f)
         == Decision(f.entrance.p in order && !f.entrance.Tproxy? && Entered(o, slots, f.entrance), OwnDecision(o, f))
  {
    if order != [] {
      var front, q := order[..|order| - 1], order[|order| - 1];
      assert order == front + [q];
      ProxiesDecide(o, spell, front, slots, f);
      ProxyDecides(AddProxies(NOTHING, o, spell, front, slots), o, spell, q, At(slots, q), f);
    }
  }

  lemma {:induction false} TproxiesDecide(d: Draft, o: Options, order: seq<Protocol>, slots: Slots, f: Flow)
    ensures Deciding(AddTproxies(d, o, order, slots).rules, f)
         == OrElse(Deciding(d.rules, f),
                   Decision(f.entrance.Tproxy? && f.entrance.p in order && Present(slots, f.entrance.p)
                            && f.entrance.p in o.tproxyPorts,
                            OwnDecision(o, f)))
  {
    if order != [] {
      var front, q := order[..|order| - 1], order[|order| - 1];
      assert order == front + [q];
      TproxiesDecide(d, o, front, slots, f);
      var own := Rule([Tproxy(q)], Everything, LogicalTag(Name(q)));
      DecidingAppend(AddTproxies(d, o, front, slots).rules, [own], f);
      DecidingOne(own, f);
    }
  }

  // The first protocol of a longer order.
  lemma {:induction false} CorrectorAppend(o: Options, slots: Slots, order: seq<Protocol>, last: Protocol, f: Flow)
    ensures Corrector(o, slots, order + [last], f)
         == if Corrector(o, slots, order, f).Some? then Corrector(o, slots, order, f)
            else Corrector(o, slots, [last], f)
  {
    if order == [] {
      assert order + [last] == [last];
    } else {
      assert (order + [last])[1..] == order[1..] + [last];
      CorrectorAppend(o, slots, order[1..], last, f);
    }
  }

  function Correction(d: Draft, o: Options, q: Option<Protocol>): Option<Rule>
    requires q.Some? ==> q.value in o.overrides
  {
    if q.None? then None else Some(Rule(d.transparent, TcpDomains(o.overrides[q.value]), LogicalTag(Name(q.value))))
  }

  lemma {:induction false} CorrectorListed(o: Options, slots: Slots, order: seq<Protocol>, f: Flow)
    ensures Corrector(o, slots, order, f).Some? ==> Corrector(o, slots, order, f).value in o.overrides
  {
    if order != [] { CorrectorListed(o, slots, order[1..], f); }
  }

  function CorrectorFor(d: Draft, o: Options, slots: Slots, order: seq<Protocol>, f: Flow): Option<Protocol> {
    if f.tcp && f.entrance in d.transparent then Corrector(o, slots, order, f) else None
  }

  lemma {:induction false} OverridesDecide(d: Draft, o: Options, order: seq<Protocol>, slots: Slots, f: Flow)
    requires d.transparent != [] && forall q :: LogicalTag(Name(q)) in Tags(d.outbounds) <==> Present(slots, q)
    ensures var q := CorrectorFor(d, o, slots, order, f);
      && (q.Some? ==> q.value in o.overrides)
      && Deciding(OverrideRules(d, o, order), f) == Correction(d, o, q)
  {
    CorrectorListed(o, slots, order, f);
    if order != [] {
      var front, q := order[..|order| - 1], order[|order| - 1];
      assert order == front + [q];
      OverridesDecide(d, o, front, slots, f);
      CorrectorAppend(o, slots, front, q, f);
      if q in o.overrides {
        var r := Rule(d.transparent, TcpDomains(o.overrides[q]), LogicalTag(Name(q)));
        DecidingAppend(OverrideRules(d, o, front), if o.overrides[q] != [] && Present(slots, q) then [r] else [], f);
        DecidingOne(r, f);
      } else {
        assert OverrideRules(d, o, order) == OverrideRules(d, o, front) + [];
        assert OverrideRules(d, o, front) + [] == OverrideRules(d, o, front);
      }
    }
  }

  // ---------------------------------------------------------------------------------------------
  // The finished rules.

  // The entrances of sniffed and of redirected traffic, and the protocols with a handler.
  ghost predicate Laid(d: Draft, o: Options, slots: Slots) {
    && (forall e :: e in d.transparent <==> e.Transparent? && Entered(o, slots, e))
    && (forall e :: e in d.tproxied <==> e.Tproxy? && Entered(o, slots, e))
    && (forall q :: LogicalTag(Name(q)) in Tags(d.outbounds) <==> Present(slots, q))
    && (d.outbounds == [] <==> !Occupied(slots))
  }

  lemma {:induction false} ProxyEntrances(o: Options, spell: (Protocol, string) -> string, order: seq<Protocol>,
                                          slots: Slots)
    ensures AddProxies(NOTHING, o, spell, order, slots).tproxied == []
    ensures forall e :: e in AddProxies(NOTHING, o, spell, order, slots).transparent <==>
              e.Transparent? && e.p in order && Entered(o, slots, e)
  {
    if order != [] {
      ProxyEntrances(o, spell, order[..|order| - 1], slots);
      assert order == order[..|order| - 1] + [order[|order| - 1]];
    }
  }

  lemma {:induction false} TproxyEntrances(d: Draft, o: Options, order: seq<Protocol>, slots: Slots)
    requires d.tproxied == [] && o.tproxy
    ensures AddTproxies(d, o, order, slots).transparent == d.transparent
    ensures forall e :: e in AddTproxies(d, o, order, slots).tproxied <==>
              e.Tproxy? && e.p in order && Entered(o, slots, e)
  {
    if order != [] {
      TproxyEntrances(d, o, order[..|order| - 1], slots);
      assert order == order[..|order| - 1] + [order[|order| - 1]];
    }
  }

  lemma InEveryOrder(p: Protocol)
    ensures p in BUILD_ORDER && p in TPROXY_ORDER
  {
  }

  // The draft before its end is added.
  function Middle(o: Options, spell: (Protocol, string) -> string, slots: Slots): Draft {
    var d := AddProxies(NOTHING, o, spell, BUILD_ORDER, slots);
    if o.tproxy then AddTproxies(d, o, TPROXY_ORDER, slots) else d
  }

  lemma MiddleIsLaid(o: Options, spell: (Protocol, string) -> string, slots: Slots)
    ensures Laid(Middle(o, spell, slots), o, slots)
  {
    var d := AddProxies(NOTHING, o, spell, BUILD_ORDER, slots);
    forall p ensures p in BUILD_ORDER && p in TPROXY_ORDER { InEveryOrder(p); }
    ProxyEntrances(o, spell, BUILD_ORDER, slots);
    if o.tproxy {
      TproxyEntrances(d, o, TPROXY_ORDER, slots);
      TproxiesAlike(d, d, o, TPROXY_ORDER, slots, slots);
    }
    ProxyHandlers(o, spell, BUILD_ORDER, slots);
    forall q ensures LogicalTag(Name(q)) in Tags(d.outbounds) <==> Present(slots, q) {
      HandlerTags(spell, BUILD_ORDER, slots, q);
    }
    if !Occupied(slots) {
      forall p ensures At(slots, p).Absent? { assert !Present(slots, p); }
      NoHandlers(spell, BUILD_ORDER, slots);
    } else {
      var p :| Present(slots, p);
      assert LogicalTag(Name(p)) in Tags(d.outbounds);
    }
  }

  lemma MiddleDecides(o: Options, spell: (Protocol, string) -> string, slots: Slots, f: Flow)
    ensures Deciding(Middle(o, spell, slots).rules, f) == Decision(Entered(o, slots, f.entrance), OwnDecision(o, f))
  {
    InEveryOrder(f.entrance.p);
    ProxiesDecide(o, spell, BUILD_ORDER, slots, f);
    if o.tproxy { TproxiesDecide(AddProxies(NOTHING, o, spell, BUILD_ORDER, slots), o, TPROXY_ORDER, slots, f); }
  }

  function ConnectivityRules(o: Options): seq<Rule> {
    if o.connectivity == [] then [] else [Rule([], Domains(o.connectivity), "direct")]
  }

  lemma EndDecides(d: Draft, o: Options, f: Flow)
    requires d.outbounds != []
    ensures Deciding(RestDirect(d, o).rules, f)
         == if Hits(o.connectivity, f.names) then Some(Rule([], Domains(o.connectivity), "direct"))
            else OrElse(Deciding(d.rules, f), Some(Rule([], AnyPort, "direct")))
  {
    DecidingAppend(ConnectivityRules(o) + d.rules, [Rule([], AnyPort, "direct")], f);
    DecidingAppend(ConnectivityRules(o), d.rules, f);
    DecidingOne(Rule([], AnyPort, "direct"), f);
    DecidingOne(Rule([], Domains(o.connectivity), "direct"), f);
  }

  lemma TorrentsDecide(d: Draft, o: Options, slots: Slots, f: Flow)
    requires Laid(d, o, slots)
    ensures Deciding(TorrentsDirect(d, o).rules, f)
         == if o.bittorrent && f.torrent && !f.entrance.Socks? && Entered(o, slots, f.entrance)
            then Some(Rule(d.transparent + d.tproxied, Bittorrent, "direct")) else Deciding(d.rules, f)
  {
    var r := Rule(d.transparent + d.tproxied, Bittorrent, "direct");
    DecidingAppend([r], d.rules, f);
    DecidingOne(r, f);
    assert f.entrance in r.from <==> f.entrance in d.transparent || f.entrance in d.tproxied;
  }

  lemma CorrectionsDecide(d: Draft, o: Options, slots: Slots, f: Flow)
    requires Laid(d, o, slots)
    ensures var q := CorrectorFor(d, o, slots, OVERRIDE_ORDER, f);
      && (q.Some? ==> q.value in o.overrides)
      && Deciding(Corrected(d, o).rules, f) == OrElse(Correction(d, o, q), Deciding(d.rules, f))
  {
    if d.transparent != [] {
      OverridesDecide(d, o, OVERRIDE_ORDER, slots, f);
      DecidingAppend(OverrideRules(d, o, OVERRIDE_ORDER), d.rules, f);
    }
  }

  lemma HasMember(entrances: seq<Entrance>)
    requires entrances != []
    ensures exists e :: e in entrances
  {
    assert entrances[0] in entrances;
  }

  // Without a handler there is nothing at all.
  lemma NothingToEnter(d: Draft, o: Options, slots: Slots)
    requires Laid(d, o, slots) && !Occupied(slots)
    ensures Finished(d, o) == d
  {
    if d.transparent != [] { HasMember(d.transparent); }
    if d.tproxied != [] { HasMember(d.tproxied); }
  }

  lemma BuildDecides(o: Options, spell: (Protocol, string) -> string, slots: Slots, f: Flow)
    ensures Target(Build(o, spell, slots).rules, f) == Destination(o, slots, f)
    ensures f.entrance.Socks? ==>
              (Deciding(Build(o, spell, slots).rules, f) == Some(OwnRule(f.entrance.p)) <==>
                 Present(slots, f.entrance.p) && !Hits(o.connectivity, f.names))
  {
    var d := Middle(o, spell, slots);
    MiddleIsLaid(o, spell, slots);
    MiddleDecides(o, spell, slots, f);
    if Occupied(slots) {
      CorrectionsDecide(d, o, slots, f);
      TorrentsDecide(Corrected(d, o), o, slots, f);
      EndDecides(TorrentsDirect(Corrected(d, o), o), o, f);
    } else {
      NothingToEnter(d, o, slots);
    }
  }

  /** Every flow leaves by the outbound that the options promise: its own protocol's, with the exceptions for
      connectivity checks, torrents, corrected overlaps and what a strict policy does not list, in this order. */
  lemma EveryFlowIsRouted(o: Options, spell: (Protocol, string) -> string, slots: Slots, f: Flow)
    ensures Target(Build(o, spell, slots).rules, f) == Destination(o, slots, f)
  {
    BuildDecides(o, spell, slots, f);
  }

  /** A flow from a protocol's SOCKS entrance is decided by that protocol's own rule, which sends it to the protocol's
      handler, exactly if the handler is there and the flow's name is not one of the connectivity checks. */
  lemma SocksReachesOwnOutbound(o: Options, spell: (Protocol, string) -> string, slots: Slots, f: Flow)
    requires f.entrance.Socks?
    ensures Deciding(Build(o, spell, slots).rules, f) == Some(OwnRule(f.entrance.p)) <==>
              Present(slots, f.entrance.p) && !Hits(o.connectivity, f.names)
  {
    BuildDecides(o, spell, slots, f);
  }

  // The program's own list of checks begins with this one.
  const CHECK := "full:connectivitycheck.gstatic.com"

  /** A flow from the SOCKS entrance of a protocol with a key that leaves directly. */
  lemma ConnectivityBypassExample(spell: (Protocol, string) -> string)
    ensures var o := Options(true, false, {}, {}, {}, map[], map[], false, [CHECK]);
      var rules := Build(o, spell, SlotsFor(map[Vless := "key"], true)).rules;
      Target(rules, Flow(Socks(Vless), {CHECK}, {}, {}, true, false)) == Some("direct")
  {
    var o := Options(true, false, {}, {}, {}, map[], map[], false, [CHECK]);
    var slots := SlotsFor(map[Vless := "key"], true);
    var f := Flow(Socks(Vless), {CHECK}, {}, {}, true, false);
    EveryFlowIsRouted(o, spell, slots, f);
    assert CHECK in [CHECK];
    assert At(slots, Vless) == Filled("key");
    assert Present(slots, Vless);
  }
}
