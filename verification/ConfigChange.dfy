/**
 What a change of keys amounts to (app/proxy_apply_plan.py:79-139): the built configurations are valid, with reserved
 slots they differ in no more than outbounds, and one key's change asks for a core restart in exactly these cases.
 The protocol of a handler is part of its body.
 */
module ConfigChange {
  import opened Wrappers
  import opened RuntimeModel
  import opened ConfigBuilder

  // How the lists are spelled as JSON; the outbounds are spelled by their tags and bodies.
  datatype Spelling = Spelling(core: seq<Inbound> -> string, strategy: string, rules: seq<Rule> -> string)

  function ToLogical(sp: Spelling, d: Draft): Logical {
    Logical(sp.core(d.inbounds), sp.strategy, sp.rules(d.rules), d.outbounds)
  }

  function Configuration(sp: Spelling, o: Options, spell: (Protocol, string) -> string, keys: map<Protocol, string>,
                         reserve: bool): Logical {
    ToLogical(sp, Build(o, spell, SlotsFor(keys, reserve)))
  }

  // With every slot present the handlers are the protocols in order.
  lemma {:induction false} FullHandler(spell: (Protocol, string) -> string, order: seq<Protocol>, slots: Slots, i: nat)
    requires i < |order| && forall p :: !At(slots, p).Absent?
    ensures |Handlers(spell, order, slots)| == |order|
    ensures Handlers(spell, order, slots)[i] == OutboundOf(spell, order[i], At(slots, order[i]))
  {
    if |order| > 1 { FullHandler(spell, order[..|order| - 1], slots, if i < |order| - 1 then i else 0); }
  }

  // ---------------------------------------------------------------------------------------------
  // What a comparison accepts: named handlers with tags of their own, and some outbound.

  function Suffix(e: Entrance): string {
    match e case Socks(_) => "" case Transparent(_) => "-transparent" case Tproxy(_) => "-tproxy"
  }

  function EntranceTag(e: Entrance): Tag {
    "in-" + (Name(e.p) + Suffix(e))
  }

  function InboundTags(inbounds: seq<Inbound>): (tags: seq<Tag>)
    ensures |tags| == |inbounds| && forall i :: 0 <= i < |inbounds| ==> tags[i] == EntranceTag(inbounds[i].entrance)
  {
    seq(|inbounds|, i requires 0 <= i < |inbounds| => EntranceTag(inbounds[i].entrance))
  }

  predicate IsSpace(c: char) {
    c == ' ' || c == '\t' || c == '\n' || c == '\r'
  }

  predicate Named(tag: Tag) {
    exists i :: 0 <= i < |tag| && !IsSpace(tag[i])
  }

  predicate Valid(d: Draft) {
    && d.outbounds != [] && NoRepeats(Tags(d.outbounds)) && NoRepeats(InboundTags(d.inbounds))
    && forall t :: t in Tags(d.outbounds) + InboundTags(d.inbounds) ==> Named(t)
  }

  /** A configuration without outbounds, with a tag that is used twice among its outbounds or its inbounds, or with a
      blank tag is not valid. */
  lemma FaultsAreInvalid(d: Draft)
    ensures d.outbounds == [] ==> !Valid(d)
    ensures forall i, j :: 0 <= i < j < |d.outbounds| && d.outbounds[i].tag == d.outbounds[j].tag ==> !Valid(d)
    ensures forall i, j :: 0 <= i < j < |d.inbounds| && d.inbounds[i].entrance == d.inbounds[j].entrance ==> !Valid(d)
    ensures forall i :: 0 <= i < |d.outbounds| && Blank(d.outbounds[i].tag) ==> !Valid(d)
  {
    var outbounds, inbounds := Tags(d.outbounds), InboundTags(d.inbounds);
    forall i | 0 <= i < |d.outbounds| && Blank(d.outbounds[i].tag) ensures !Valid(d) {
      assert outbounds[i] in outbounds + inbounds && outbounds[i] == d.outbounds[i].tag;
      BlankIsUnnamed(outbounds[i]);
    }
  }

  predicate Blank(tag: Tag) {
    forall i :: 0 <= i < |tag| ==> tag[i] in {' ', '\t', '\n', '\r'}
  }

  lemma BlankIsUnnamed(tag: Tag)
    requires Blank(tag)
    ensures !Named(tag)
  {
  }

  // An invalid configuration on either side is refused.
  function ClassifyConfigChange(sp: Spelling, current: Draft, desired: Draft): Option<ChangeKind> {
    if !Valid(current) || !Valid(desired) then None else Some(Classify(ToLogical(sp, current), ToLogical(sp, desired)))
  }

  lemma NameHasNoDash(p: Protocol)
    ensures '-' !in Name(p) && (forall q :: Name(p) == Name(q) ==> p == q)
  {
  }

  lemma EntranceTagsDiffer(e: Entrance, f: Entrance)
    requires EntranceTag(e) == EntranceTag(f)
    ensures e == f
  {
    var m, n := Name(e.p), Name(f.p);
    NameHasNoDash(e.p);
    NameHasNoDash(f.p);
    assert EntranceTag(e)[3..] == m + Suffix(e) && EntranceTag(f)[3..] == n + Suffix(f);
    SameName(m, Suffix(e), n, Suffix(f));
  }

  // Where the first dash stands decides where the name ends.
  lemma NameEnds(m: string, s: string, n: string, t: string)
    requires m + s == n + t && '-' !in n && (s != "" ==> s[0] == '-')
    ensures |n| <= |m|
  {
    forall i | 0 <= i < |n| ensures (n + t)[i] != '-' { assert n[i] in n; }
    assert s != "" ==> (m + s)[|m|] == '-';
  }

  lemma SameName(m: string, s: string, n: string, t: string)
    requires m + s == n + t && '-' !in m && '-' !in n && (s != "" ==> s[0] == '-') && (t != "" ==> t[0] == '-')
    ensures m == n && s == t
  {
    NameEnds(m, s, n, t);
    NameEnds(n, t, m, s);
    assert m == (m + s)[..|m|] && n == (n + t)[..|n|];
    assert s == (m + s)[|m|..] && t == (n + t)[|n|..];
  }

  predicate Apart(inbounds: seq<Inbound>) {
    forall i, j :: 0 <= i < j < |inbounds| ==> inbounds[i].entrance != inbounds[j].entrance
  }

  // Entrances of these protocols alone, of sniffed or SOCKS traffic.
  predicate Of(inbounds: seq<Inbound>, order: seq<Protocol>) {
    forall i :: 0 <= i < |inbounds| ==> !inbounds[i].entrance.Tproxy? && inbounds[i].entrance.p in order
  }

  lemma OneMoreApart(inbounds: seq<Inbound>, more: Inbound)
    requires Apart(inbounds) && forall i :: 0 <= i < |inbounds| ==> inbounds[i].entrance != more.entrance
    ensures Apart(inbounds + [more])
  {
  }

  lemma ProxyApart(d: Draft, o: Options, spell: (Protocol, string) -> string, order: seq<Protocol>, p: Protocol,
                   slot: Slot)
    requires Apart(d.inbounds) && Of(d.inbounds, order) && p !in order
    ensures Apart(AddProxy(d, o, spell, p, slot).inbounds) && Of(AddProxy(d, o, spell, p, slot).inbounds, order + [p])
  {
    var socks := Inbound(Socks(p), false);
    OneMoreApart(d.inbounds, socks);
    assert Of(d.inbounds + [socks], order + [p]);
    if HasTransparent(o, p) { OneMoreApart(d.inbounds + [socks], Inbound(Transparent(p), p in o.routeOnly)); }
  }

  lemma {:induction false} ProxiesApart(o: Options, spell: (Protocol, string) -> string, order: seq<Protocol>,
                                        slots: Slots)
    requires NoRepeats(order)
    ensures var d := AddProxies(NOTHING, o, spell, order, slots); Apart(d.inbounds) && Of(d.inbounds, order)
  {
    if order != [] {
      var front, p := order[..|order| - 1], order[|order| - 1];
      ProxiesApart(o, spell, front, slots);
      assert order == front + [p] && p !in front;
      ProxyApart(AddProxies(NOTHING, o, spell, front, slots), o, spell, front, p, At(slots, p));
    }
  }

  lemma {:induction false} TproxiesApart(d: Draft, o: Options, order: seq<Protocol>, slots: Slots)
    requires NoRepeats(order) && Apart(d.inbounds) && forall i :: 0 <= i < |d.inbounds| ==>
              !d.inbounds[i].entrance.Tproxy?
    ensures var e := AddTproxies(d, o, order, slots);
      Apart(e.inbounds) && forall i :: 0 <= i < |e.inbounds| && e.inbounds[i].entrance.Tproxy? ==>
        e.inbounds[i].entrance.p in order
  {
    if order != [] {
      var front, p := order[..|order| - 1], order[|order| - 1];
      TproxiesApart(d, o, front, slots);
      assert order == front + [p] && p !in front;
      OneMoreApart(AddTproxies(d, o, front, slots).inbounds, Inbound(Tproxy(p), p in o.routeOnlyTproxy));
    }
  }

  lemma {:induction false} HandlersApart(spell: (Protocol, string) -> string, order: seq<Protocol>, slots: Slots)
    requires NoRepeats(order)
    ensures var tags := Tags(Handlers(spell, order, slots));
      NoRepeats(tags) && forall t :: t in tags ==> exists p :: p in order && t == LogicalTag(Name(p))
  {
    if order != [] {
      var front, p := order[..|order| - 1], order[|order| - 1];
      HandlersApart(spell, front, slots);
      assert order == front + [p] && p !in front;
      var handlers := Handlers(spell, front, slots);
      TagsAppend(handlers, OutboundOf(spell, p, At(slots, p)));
      HandlerTags(spell, front, slots, p);
      assert Handlers(spell, order, slots)
          == if At(slots, p).Absent? then handlers else handlers + [OutboundOf(spell, p, At(slots, p))];
    }
  }

  lemma TagsNamed(p: Protocol, e: Entrance)
    ensures Named(LogicalTag(Name(p))) && Named(EntranceTag(e)) && Named("direct")
  {
    assert LogicalTag(Name(p))[0] == 'p' && EntranceTag(e)[0] == 'i' && "direct"[0] == 'd';
    assert !IsSpace('p') && !IsSpace('i') && !IsSpace('d');
  }

  lemma OrdersDistinct()
    ensures NoRepeats(BUILD_ORDER) && NoRepeats(TPROXY_ORDER)
  {
  }

  lemma InboundsValid(o: Options, spell: (Protocol, string) -> string, slots: Slots)
    ensures var tags := InboundTags(Build(o, spell, slots).inbounds);
      NoRepeats(tags) && forall t :: t in tags ==> Named(t)
  {
    OrdersDistinct();
    ProxiesApart(o, spell, BUILD_ORDER, slots);
    TproxiesApart(AddProxies(NOTHING, o, spell, BUILD_ORDER, slots), o, TPROXY_ORDER, slots);
    var inbounds := Build(o, spell, slots).inbounds;
    var tags := InboundTags(inbounds);
    assert Apart(inbounds);
    forall i, j | 0 <= i < j < |tags| ensures tags[i] != tags[j] {
      if tags[i] == tags[j] { EntranceTagsDiffer(inbounds[i].entrance, inbounds[j].entrance); }
    }
    forall t | t in tags ensures Named(t) {
      var i :| 0 <= i < |tags| && tags[i] == t;
      TagsNamed(Vmess, inbounds[i].entrance);
    }
  }

  lemma OutboundsValid(o: Options, spell: (Protocol, string) -> string, slots: Slots)
    ensures var tags := Tags(Build(o, spell, slots).outbounds); NoRepeats(tags) && forall t :: t in tags ==> Named(t)
  {
    OrdersDistinct();
    HandlersApart(spell, BUILD_ORDER, slots);
    BuiltHandlers(o, spell, slots);
    var handlers := Handlers(spell, BUILD_ORDER, slots);
    TagsAppend(handlers, DIRECT);
    forall t | t in Tags(handlers) ensures Named(t) && t != "direct" {
      var p :| p in BUILD_ORDER && t == LogicalTag(Name(p));
      TagsNamed(p, Socks(p));
      TagsDiffer(p, p);
    }
    TagsNamed(Vmess, Socks(Vmess));
  }

  /** A built configuration is accepted exactly if some protocol has a handler. */
  lemma BuildIsValid(o: Options, spell: (Protocol, string) -> string, slots: Slots)
    ensures Valid(Build(o, spell, slots)) <==> exists p :: !At(slots, p).Absent?
  {
    InboundsValid(o, spell, slots);
    OutboundsValid(o, spell, slots);
    if p :| !At(slots, p).Absent? {
      PresentTags(o, spell, slots, p);
    } else {
      NoHandlers(spell, BUILD_ORDER, slots);
      BuiltHandlers(o, spell, slots);
    }
  }

  /** Two key assignments differ in no more than outbounds exactly when the same protocols have a handler.  They are
      compared at all exactly if each of them has a handler; with reserved slots both are always so. */
  lemma KeysChangeOutboundsOnly(sp: Spelling, o: Options, spell: (Protocol, string) -> string,
                                a: map<Protocol, string>, b: map<Protocol, string>, reserve: bool)
    ensures var change := Classify(Configuration(sp, o, spell, a, reserve), Configuration(sp, o, spell, b, reserve));
      && ((change.Unchanged? || change.OutboundOnly?) <==> SamePresence(SlotsFor(a, reserve), SlotsFor(b, reserve)))
      && (reserve ==> change.Unchanged? || change.OutboundOnly?)
    ensures var x, y := SlotsFor(a, reserve), SlotsFor(b, reserve);
      var change := ClassifyConfigChange(sp, Build(o, spell, x), Build(o, spell, y));
      && (change.Some? <==> (exists p :: !At(x, p).Absent?) && exists p :: !At(y, p).Absent?)
      && (change.Some? ==>
            change.value == Classify(Configuration(sp, o, spell, a, reserve), Configuration(sp, o, spell, b, reserve)))
      && (reserve ==> change.Some?)
  {
    var x, y := SlotsFor(a, reserve), SlotsFor(b, reserve);
    BuildIsValid(o, spell, x);
    BuildIsValid(o, spell, y);
    if reserve {
      ReservedSlots(a);
      ReservedSlots(b);
    }
    DifferInOutbounds(sp, o, spell, x, y);
  }

  lemma DifferInOutbounds(sp: Spelling, o: Options, spell: (Protocol, string) -> string, x: Slots, y: Slots)
    ensures var change := Classify(ToLogical(sp, Build(o, spell, x)), ToLogical(sp, Build(o, spell, y)));
      change.Unchanged? || change.OutboundOnly? <==> SamePresence(x, y)
  {
    if SamePresence(x, y) {
      BuildsAlike(o, spell, x, y);
    } else {
      var p :| !(At(x, p).Absent? <==> At(y, p).Absent?);
      PresentTags(o, spell, x, p);
      PresentTags(o, spell, y, p);
    }
  }

  // All six handlers in order, then the direct one.
  ghost predicate Full(outbounds: seq<Outbound>, spell: (Protocol, string) -> string, slots: Slots) {
    && |outbounds| == 7 && outbounds[6] == DIRECT
    && forall i :: 0 <= i < 6 ==> outbounds[i] == OutboundOf(spell, BUILD_ORDER[i], At(slots, BUILD_ORDER[i]))
  }

  lemma ReservedSlots(keys: map<Protocol, string>)
    ensures forall p :: !At(SlotsFor(keys, true), p).Absent?
  {
    forall p ensures !At(SlotsFor(keys, true), p).Absent? {
      assert BUILD_ORDER[IndexOf(p)] == p;
      assert p in {Vmess, Shadowsocks, Vless, Vless2, Trojan, Hysteria2};
    }
  }

  lemma ReservedHandlers(o: Options, spell: (Protocol, string) -> string, keys: map<Protocol, string>)
    ensures Full(Build(o, spell, SlotsFor(keys, true)).outbounds, spell, SlotsFor(keys, true))
  {
    BuiltHandlers(o, spell, SlotsFor(keys, true));
    ReservedSlots(keys);
    forall i | 0 <= i < 6
      ensures |Handlers(spell, BUILD_ORDER, SlotsFor(keys, true))| == 6
      ensures Handlers(spell, BUILD_ORDER, SlotsFor(keys, true))[i] ==
                OutboundOf(spell, BUILD_ORDER[i], At(SlotsFor(keys, true), BUILD_ORDER[i]))
    {
      FullHandler(spell, BUILD_ORDER, SlotsFor(keys, true), i);
    }
  }

  function IndexOf(p: Protocol): (k: nat)
    ensures k < 6 && BUILD_ORDER[k] == p
  {
    match p case Vmess => 0 case Shadowsocks => 1 case Vless => 2 case Vless2 => 3 case Trojan => 4 case Hysteria2 => 5
  }

  lemma FullTagsUnique(outbounds: seq<Outbound>, spell: (Protocol, string) -> string, slots: Slots)
    requires Full(outbounds, spell, slots)
    ensures forall i, j :: 0 <= i < j < 7 ==> outbounds[i].tag != outbounds[j].tag
  {
    forall i, j | 0 <= i < j < 7 ensures outbounds[i].tag != outbounds[j].tag {
      TagsDiffer(BUILD_ORDER[i], if j < 6 then BUILD_ORDER[j] else Vmess);
      assert IndexOf(BUILD_ORDER[i]) == i;
      assert j < 6 ==> IndexOf(BUILD_ORDER[j]) == j;
    }
  }

  lemma FullFind(outbounds: seq<Outbound>, spell: (Protocol, string) -> string, slots: Slots, p: Protocol)
    requires Full(outbounds, spell, slots)
    ensures Find(outbounds, LogicalTag(Name(p))) == Some(OutboundOf(spell, p, At(slots, p)))
  {
    FullTagsUnique(outbounds, spell, slots);
    FindFirst(outbounds, IndexOf(p));
  }

  // Two full lists whose slots differ at one protocol differ at its index alone.
  lemma FullDiffer(x: Logical, y: Logical, spell: (Protocol, string) -> string, a: Slots, b: Slots, p: Protocol)
    requires Full(x.outbounds, spell, a) && Full(y.outbounds, spell, b) && forall q :: q != p ==> At(a, q) == At(b, q)
    ensures var before, after := OutboundOf(spell, p, At(a, p)), OutboundOf(spell, p, At(b, p));
      && ChangedTags(x, y) == (if before == after then {} else {LogicalTag(Name(p))})
      && (x.outbounds == y.outbounds <==> before == after)
  {
    var k := IndexOf(p);
    forall i | 0 <= i < 7 && i != k ensures x.outbounds[i] == y.outbounds[i] {
      if i < 6 { assert IndexOf(BUILD_ORDER[i]) == i; }
    }
    ChangedAt(x, y, k);
  }

  lemma ChangedAt(x: Logical, y: Logical, k: nat)
    requires k < |x.outbounds| == |y.outbounds| && forall i :: 0 <= i < |x.outbounds| && i != k ==>
              x.outbounds[i] == y.outbounds[i]
    ensures ChangedTags(x, y) == if x.outbounds[k] == y.outbounds[k] then {} else {x.outbounds[k].tag}
    ensures x.outbounds == y.outbounds <==> x.outbounds[k] == y.outbounds[k]
  {
  }

  // What the requirement comes to when only this protocol's outbound may differ.
  lemma RequirementOf(c: Capability, x: Logical, y: Logical, spell: (Protocol, string) -> string, a: Slots, b: Slots,
                      p: Protocol)
    requires Full(x.outbounds, spell, a) && Full(y.outbounds, spell, b) && forall q :: q != p ==> At(a, q) == At(b, q)
    requires Classify(x, y).Unchanged? || Classify(x, y).OutboundOnly?
    ensures var before, after := OutboundOf(spell, p, At(a, p)), OutboundOf(spell, p, At(b, p));
      && (ApplyRequirement(c, Name(p), x, y).CommonCoreRestart? <==>
            || Name(p) !in c.allowed
            || (before != after && (before.body !in c.qualified || after.body !in c.qualified
                  || (Name(p) in c.service
                      && (before.body !in c.serviceQualified || after.body !in c.serviceQualified)))))
  {
    FullDiffer(x, y, spell, a, b, p);
    FullFind(x.outbounds, spell, a, p);
    FullFind(y.outbounds, spell, b, p);
  }

  /** With reserved slots, changing one protocol's key alters at most that outbound, so it asks for a core restart
      only because the protocol is not allowed or one of its two outbounds is not qualified. */
  lemma OneKeyAsksForNoRestart(sp: Spelling, o: Options, spell: (Protocol, string) -> string, c: Capability,
                               a: map<Protocol, string>, b: map<Protocol, string>, p: Protocol)
    requires forall q :: q != p ==> At(SlotsFor(a, true), q) == At(SlotsFor(b, true), q)
    ensures var before, after := OutboundOf(spell, p, At(SlotsFor(a, true), p)),
                                 OutboundOf(spell, p, At(SlotsFor(b, true), p));
      var x, y := Configuration(sp, o, spell, a, true), Configuration(sp, o, spell, b, true);
      && ChangedTags(x, y) == (if before == after then {} else {LogicalTag(Name(p))})
      && (ApplyRequirement(c, Name(p), x, y).CommonCoreRestart? <==>
            || Name(p) !in c.allowed
            || (before != after && (before.body !in c.qualified || after.body !in c.qualified
                  || (Name(p) in c.service
                      && (before.body !in c.serviceQualified || after.body !in c.serviceQualified)))))
  {
    var x, y := Configuration(sp, o, spell, a, true), Configuration(sp, o, spell, b, true);
    KeysChangeOutboundsOnly(sp, o, spell, a, b, true);
    ReservedHandlers(o, spell, a);
    ReservedHandlers(o, spell, b);
    FullDiffer(x, y, spell, SlotsFor(a, true), SlotsFor(b, true), p);
    RequirementOf(c, x, y, spell, SlotsFor(a, true), SlotsFor(b, true), p);
  }

  /** Without reserved slots a second key changes the topology. */
  lemma TopologyChangeExample(sp: Spelling, o: Options, spell: (Protocol, string) -> string)
    ensures var x, y := SlotsFor(map[Vless := "key"], false), SlotsFor(map[Vless := "key", Vmess := "key"], false);
      ClassifyConfigChange(sp, Build(o, spell, x), Build(o, spell, y)) == Some(Core)
  {
    var a, b := map[Vless := "key"], map[Vless := "key", Vmess := "key"];
    var x, y := SlotsFor(a, false), SlotsFor(b, false);
    assert At(x, Vless) == Filled("key") && At(y, Vless) == Filled("key") && At(x, Vmess) == Absent &&
           At(y, Vmess) == Filled("key");
    KeysChangeOutboundsOnly(sp, o, spell, a, b, false);
    PresentTags(o, spell, x, Vmess);
    PresentTags(o, spell, y, Vmess);
  }
}
