/**
 The values that an apply works on: logical configurations and how two of them differ
 (app/proxy_apply_plan.py), generation tags and selectors (app/xray_live_apply.py), the applied-state receipt
 and what each file holds (app/proxy_live_runtime.py).  JSON texts are represented by the value they spell,
 digests by the value they identify.
 */
module RuntimeModel {
  import opened Wrappers

  type Tag = string

  datatype Outbound = Outbound(tag: Tag, body: string)

  // A generated configuration: what only a restart can change, what routing holds, and the tagged outbounds.
  datatype Logical = Logical(core: string, domainStrategy: string, rules: string, outbounds: seq<Outbound>)

  // What the core's API shows: its handlers and, per balancer, the selected target ("" is the fixed selector).
  datatype Observation = Observation(handlers: map<Tag, string>, overrides: map<Tag, Tag>)

  datatype Receipt = Receipt(identity: nat, generation: nat, logical: Logical, targets: map<Tag, Tag>,
                             retained: seq<Tag>, observed: Observation)

  datatype Document =
    | KeyText(key: string)
    | CoreConfig(logical: Logical, targets: map<Tag, Tag>)
    | ReceiptText(receipt: Receipt)
    | OtherText(text: string)

  // ---------------------------------------------------------------------------------------------
  // How two configurations differ.

  datatype ChangeKind = Unchanged | OutboundOnly | RoutingOnly | OutboundAndRouting | Core

  datatype Requirement = Hot | ProtocolServiceRestart | CommonCoreRestart

  function Tags(outbounds: seq<Outbound>): (tags: seq<Tag>)
    ensures |tags| == |outbounds| && forall i :: 0 <= i < |outbounds| ==> tags[i] == outbounds[i].tag
  {
    seq(|outbounds|, i requires 0 <= i < |outbounds| => outbounds[i].tag)
  }

  predicate UniqueTags(config: Logical) {
    forall i, j :: 0 <= i < j < |config.outbounds| ==> config.outbounds[i].tag != config.outbounds[j].tag
  }

  function Classify(current: Logical, desired: Logical): ChangeKind {
    if current == desired then Unchanged
    else if current.core != desired.core || current.domainStrategy != desired.domainStrategy
            || Tags(current.outbounds) != Tags(desired.outbounds) then Core
    else if current.outbounds != desired.outbounds && current.rules != desired.rules then OutboundAndRouting
    else if current.outbounds != desired.outbounds then OutboundOnly else RoutingOnly
  }

  /** Only rules, only outbounds under the same tags, or both; anything else that differs concerns the core. */
  lemma ClassifyMeans(current: Logical, desired: Logical)
    ensures var kind := Classify(current, desired); var sameTags := Tags(current.outbounds) == Tags(desired.outbounds);
      && (kind.Unchanged? <==> current == desired)
      && (kind.RoutingOnly? <==> current.rules != desired.rules && desired == current.(rules := desired.rules))
      && (kind.OutboundOnly? <==> current.outbounds != desired.outbounds && sameTags
                                  && desired == current.(outbounds := desired.outbounds))
      && (kind.OutboundAndRouting? <==>
            current.outbounds != desired.outbounds && current.rules != desired.rules && sameTags
            && desired == current.(outbounds := desired.outbounds, rules := desired.rules))
  {
  }

  function LogicalTag(protocol: string): Tag {
    "proxy-" + protocol
  }

  function Find(outbounds: seq<Outbound>, tag: Tag): Option<Outbound> {
    if outbounds == [] then None
    else if outbounds[0].tag == tag then Some(outbounds[0]) else Find(outbounds[1..], tag)
  }

  // The deployment's allowlists and transport qualification, as tables.
  datatype Capability = Capability(allowed: set<string>, service: set<string>, qualified: set<string>,
                                   serviceQualified: set<string>)

  // The tags whose outbounds differ, for two configurations with the same tags.
  function ChangedTags(current: Logical, desired: Logical): set<Tag> {
    set i | 0 <= i < |current.outbounds| && i < |desired.outbounds|
            && current.outbounds[i] != desired.outbounds[i] :: current.outbounds[i].tag
  }

  function ApplyRequirement(c: Capability, protocol: string, current: Logical, desired: Logical): Requirement {
    var change := Classify(current, desired);
    var tag := LogicalTag(protocol);
    var before, after := Find(current.outbounds, tag), Find(desired.outbounds, tag);
    if protocol !in c.allowed then CommonCoreRestart
    else if !(change.Unchanged? || change.OutboundOnly?) || after.None? then CommonCoreRestart
    else if change.Unchanged? then Hot
    else if before.None? || before.value.body !in c.qualified || after.value.body !in c.qualified then CommonCoreRestart
    else if protocol in c.service
            && (before.value.body !in c.serviceQualified || after.value.body !in c.serviceQualified) then
      CommonCoreRestart
    else if ChangedTags(current, desired) != {tag} then CommonCoreRestart
    else if protocol in c.service then ProtocolServiceRestart else Hot
  }

  lemma {:induction false} FindIndex(outbounds: seq<Outbound>, tag: Tag) returns (k: nat)
    requires Find(outbounds, tag).Some?
    ensures k < |outbounds| && outbounds[k].tag == tag && outbounds[k] == Find(outbounds, tag).value
  {
    if outbounds[0].tag == tag { k := 0; } else { k := FindIndex(outbounds[1..], tag); k := k + 1; }
  }

  lemma {:induction false} FindFirst(outbounds: seq<Outbound>, k: nat)
    requires k < |outbounds| && forall i :: 0 <= i < k ==> outbounds[i].tag != outbounds[k].tag
    ensures Find(outbounds, outbounds[k].tag) == Some(outbounds[k])
  {
    if k > 0 {
      assert outbounds[0].tag != outbounds[k].tag;
      FindFirst(outbounds[1..], k - 1);
    }
  }

  /** Without a core restart, the desired configuration is the current one with at most this protocol's outbound
      replaced in its place: same core, same rules, same tags in the same order. */
  lemma NoRestartMeansOneOutbound(c: Capability, protocol: string, current: Logical, desired: Logical)
    requires UniqueTags(current)
    requires !ApplyRequirement(c, protocol, current, desired).CommonCoreRestart?
    ensures protocol in c.allowed && Find(desired.outbounds, LogicalTag(protocol)).Some?
    ensures exists k ::
      && 0 <= k < |current.outbounds| && current.outbounds[k].tag == LogicalTag(protocol)
      && desired == current.(outbounds := current.outbounds[
           k := Outbound(LogicalTag(protocol), Find(desired.outbounds, LogicalTag(protocol)).value.body)])
  {
    var tag := LogicalTag(protocol);
    var k := FindIndex(desired.outbounds, tag);
    if Classify(current, desired).Unchanged? {
      assert desired.outbounds == current.outbounds[k := current.outbounds[k]];
    } else {
      assert Tags(current.outbounds)[k] == Tags(desired.outbounds)[k];
      forall i | 0 <= i < |current.outbounds| && i != k ensures current.outbounds[i] == desired.outbounds[i] {
        assert current.outbounds[i].tag !in ChangedTags(current, desired);
      }
      assert desired.outbounds == current.outbounds[k := desired.outbounds[k]];
    }
  }

  // The protocol's outbound is replaced in its place, and nothing else differs.
  ghost predicate ReplacesOne(tag: Tag, current: Logical, desired: Logical, before: string, after: string) {
    exists k ::
      && 0 <= k < |current.outbounds| && current.outbounds[k] == Outbound(tag, before)
      && desired == current.(outbounds := current.outbounds[k := Outbound(tag, after)])
  }

  lemma OneReplaced(current: Logical, desired: Logical, tag: Tag, before: string, after: string)
    requires UniqueTags(current) && before != after && ReplacesOne(tag, current, desired, before, after)
    ensures Classify(current, desired).OutboundOnly? && ChangedTags(current, desired) == {tag}
    ensures Find(current.outbounds, tag) == Some(Outbound(tag, before))
    ensures Find(desired.outbounds, tag) == Some(Outbound(tag, after))
  {
    var k :| 0 <= k < |current.outbounds| && current.outbounds[k] == Outbound(tag, before)
      && desired == current.(outbounds := current.outbounds[k := Outbound(tag, after)]);
    FindFirst(current.outbounds, k);
    FindFirst(desired.outbounds, k);
    assert Tags(current.outbounds) == Tags(desired.outbounds);
    assert current.outbounds[k] != desired.outbounds[k];
    assert forall i :: 0 <= i < |current.outbounds| && i != k ==> current.outbounds[i] == desired.outbounds[i];
  }

  // The protocol is allowed, and its outbound changes from one qualified body to another.
  ghost predicate Swaps(c: Capability, protocol: string, current: Logical, desired: Logical, before: string,
                        after: string) {
    && protocol in c.allowed && before != after && before in c.qualified && after in c.qualified
    && ReplacesOne(LogicalTag(protocol), current, desired, before, after)
  }

  lemma SwapsOnce(c: Capability, protocol: string, current: Logical, desired: Logical) returns (before: string,
                                                                                             after: string)
    requires UniqueTags(current) && current != desired
    requires !ApplyRequirement(c, protocol, current, desired).CommonCoreRestart?
    ensures Swaps(c, protocol, current, desired, before, after)
    ensures protocol in c.service ==> before in c.serviceQualified && after in c.serviceQualified
  {
    var tag := LogicalTag(protocol);
    before, after := Find(current.outbounds, tag).value.body, Find(desired.outbounds, tag).value.body;
    NoRestartMeansOneOutbound(c, protocol, current, desired);
    var k :| 0 <= k < |current.outbounds| && current.outbounds[k].tag == tag
      && desired == current.(outbounds := current.outbounds[k := Outbound(tag, after)]);
    FindFirst(current.outbounds, k);
    assert current.outbounds[k] == Outbound(tag, before);
    assert current.outbounds[k := current.outbounds[k]] == current.outbounds;
  }

  /** A protocol whose service reads the configuration has that service restarted, and no other, exactly if its outbound
      changes between qualified bodies; the apply is hot if nothing changes and the outbound is there, or if the
      outbound of a protocol without a service changes like that. */
  lemma RequirementExactly(c: Capability, protocol: string, current: Logical, desired: Logical)
    requires UniqueTags(current)
    ensures ApplyRequirement(c, protocol, current, desired).ProtocolServiceRestart? <==>
              protocol in c.service && exists before, after ::
                Swaps(c, protocol, current, desired, before, after) && before in c.serviceQualified
                && after in c.serviceQualified
    ensures ApplyRequirement(c, protocol, current, desired).Hot? <==>
              || (current == desired && protocol in c.allowed
                  && Find(desired.outbounds, LogicalTag(protocol)).Some?)
              || (protocol !in c.service
                  && exists before, after :: Swaps(c, protocol, current, desired, before, after))
  {
    forall before, after | Swaps(c, protocol, current, desired, before, after)
      ensures current != desired
      ensures protocol !in c.service ==> ApplyRequirement(c, protocol, current, desired).Hot?
      ensures protocol in c.service && before in c.serviceQualified && after in c.serviceQualified ==>
                ApplyRequirement(c, protocol, current, desired).ProtocolServiceRestart?
    {
      OneReplaced(current, desired, LogicalTag(protocol), before, after);
    }
    if current != desired && !ApplyRequirement(c, protocol, current, desired).CommonCoreRestart? {
      var before, after := SwapsOnce(c, protocol, current, desired);
    }
  }

  // ---------------------------------------------------------------------------------------------
  // Generation tags.  A selector matches handlers by prefix, so no tag may begin with another.

  function Digits(n: nat): string {
    if n < 10 then [('0' as int + n) as char] else Digits(n / 10) + [('0' as int + n % 10) as char]
  }

  datatype Generation = Initial | Generation(number: nat)

  function GenerationText(g: Generation): string {
    match g
    case Initial => "initial"
    case Generation(n) => "g" + Digits(n)
  }

  function HandlerTag(logical: Tag, g: Generation): Tag {
    logical + "@" + GenerationText(g) + "."
  }

  function BalancerTag(logical: Tag): Tag {
    "bypass-choice-" + logical
  }

  lemma {:induction false} DigitsOnly(n: nat)
    ensures Digits(n) != [] && forall i :: 0 <= i < |Digits(n)| ==> '0' <= Digits(n)[i] <= '9'
  {
    if n >= 10 { DigitsOnly(n / 10); }
  }

  lemma {:induction false} DigitsDiffer(m: nat, n: nat)
    requires Digits(m) == Digits(n)
    ensures m == n
    decreases m
  {
    if m < 10 && n >= 10 { DigitsOnly(n / 10); }
    if n < 10 && m >= 10 { DigitsOnly(m / 10); }
    if m >= 10 && n >= 10 {
      var a, b := Digits(m), Digits(n);
      assert a[..|a| - 1] == Digits(m / 10) && b[..|b| - 1] == Digits(n / 10);
      assert a[|a| - 1] == b[|b| - 1];
      DigitsDiffer(m / 10, n / 10);
    }
  }

  lemma GenerationChars(g: Generation)
    ensures forall i :: 0 <= i < |GenerationText(g)| ==> GenerationText(g)[i] != '.' && GenerationText(g)[i] != '@'
  {
    if g.Generation? { DigitsOnly(g.number); }
  }

  lemma GenerationsDiffer(g: Generation, h: Generation)
    requires GenerationText(g) == GenerationText(h)
    ensures g == h
  {
    assert GenerationText(Initial)[0] == 'i';
    if g.Generation? && h.Generation? {
      assert GenerationText(g)[1..] == Digits(g.number) && GenerationText(h)[1..] == Digits(h.number);
      DigitsDiffer(g.number, h.number);
    }
  }

  // A text up to its first separator decides where the separator stands.
  lemma SameHead(a: string, x: string, b: string, y: string, c: char)
    requires c !in a && c !in b && a + [c] + x <= b + [c] + y
    ensures a == b && x <= y
  {
    var s, t := a + [c] + x, b + [c] + y;
    forall i | 0 <= i < |a| ensures a[i] == t[i] != c { assert a[i] == s[i]; }
    forall i | 0 <= i < |b| ensures b[i] == t[i] != c { assert b[i] in b; }
    assert t[|b|] == c && t[|a|] == s[|a|] == c;
    assert a == b;
    assert s[|a| + 1..] == x && t[|a| + 1..] == y;
    forall i | 0 <= i < |x| ensures x[i] == y[i] {
      assert x[i] == s[|a| + 1 + i] == t[|a| + 1 + i] == y[i];
    }
  }

  /** A handler tag is never a prefix of another one, so a balancer's selector picks exactly its own generation,
      generation 1 never generation 10, and one protocol never another. */
  lemma SelectorsAreExact(a: Tag, g: Generation, b: Tag, h: Generation)
    requires '@' !in a && '@' !in b
    requires HandlerTag(a, g) <= HandlerTag(b, h)
    ensures a == b && g == h
  {
    var x, y := GenerationText(g), GenerationText(h);
    assert HandlerTag(a, g) == a + ['@'] + (x + ['.']) && HandlerTag(b, h) == b + ['@'] + (y + ['.']);
    SameHead(a, x + ['.'], b, y + ['.'], '@');
    GenerationChars(g);
    GenerationChars(h);
    assert x + ['.'] == x + ['.'] + "" && y + ['.'] == y + ['.'] + "";
    SameHead(x, "", y, "", '.');
    GenerationsDiffer(g, h);
  }

  // ---------------------------------------------------------------------------------------------
  // The handlers that a freshly loaded configuration has.

  const DEFAULT_GUARD := "bypass-default-guard"

  predicate IsManaged(tag: Tag) {
    "proxy-" <= tag
  }

  function ManagedTags(logical: Logical): set<Tag> {
    set i | 0 <= i < |logical.outbounds| && IsManaged(logical.outbounds[i].tag) :: logical.outbounds[i].tag
  }

  // A controlled load keeps the handler tags of the last receipt.
  function TargetsFor(logical: Logical, receipt: Option<Receipt>): map<Tag, Tag> {
    map t | t in ManagedTags(logical) ::
      if receipt.Some? && t in receipt.value.targets then receipt.value.targets[t] else HandlerTag(t, Initial)
  }

  predicate Reserved(tag: Tag) {
    "bypass-" <= tag || '@' in tag
  }

  predicate OthersDiffer(targets: map<Tag, Tag>) {
    forall t, u :: t in targets && u in targets && t != u ==> targets[t] != targets[u]
  }

  // Each managed outbound has its own target, which spells its tag, '@' and a generation with a final dot.
  predicate GoodTargets(managed: set<Tag>, targets: map<Tag, Tag>) {
    && targets.Keys == managed
    && OthersDiffer(targets)
    && forall t :: t in targets ==> t + "@" <= targets[t] && targets[t][|targets[t]| - 1] == '.'
  }

  // The refusals of managed_config that outbound tags decide; what bodies and inbounds hold is left to the callers.
  predicate Manageable(logical: Logical, targets: map<Tag, Tag>) {
    && logical.outbounds != [] && UniqueTags(logical)
    && (forall i :: 0 <= i < |logical.outbounds| ==> !Reserved(logical.outbounds[i].tag))
    && GoodTargets(ManagedTags(logical), targets)
  }

  function LoadedTags(logical: Logical, targets: map<Tag, Tag>): set<Tag> {
    {DEFAULT_GUARD} + set i | 0 <= i < |logical.outbounds| ::
      if logical.outbounds[i].tag in targets then targets[logical.outbounds[i].tag] else logical.outbounds[i].tag
  }

  lemma TagsHave(outbounds: seq<Outbound>, t: Tag)
    ensures t in Tags(outbounds) <==> exists i :: 0 <= i < |outbounds| && outbounds[i].tag == t
  {
  }

  /** A controlled load has a target for exactly the outbounds of protocols: the last receipt's, or the initial one. */
  lemma TargetsMean(logical: Logical, receipt: Option<Receipt>, t: Tag)
    ensures var targets := TargetsFor(logical, receipt);
      && (t in targets <==> "proxy-" <= t && t in Tags(logical.outbounds))
      && (t in targets && receipt.Some? && t in receipt.value.targets ==> targets[t] == receipt.value.targets[t])
      && (t in targets && (receipt.None? || t !in receipt.value.targets) ==> targets[t] == t + "@initial.")
  {
    TagsHave(logical.outbounds, t);
  }

  /** The loaded core has the guard, the target of every outbound that has one, and every other outbound's own tag. */
  lemma LoadedTagsMean(logical: Logical, targets: map<Tag, Tag>, h: Tag)
    ensures h in LoadedTags(logical, targets) <==>
              || h == "bypass-default-guard"
              || (h !in targets && h in Tags(logical.outbounds))
              || (exists t :: t in targets && t in Tags(logical.outbounds) && h == targets[t])
  {
    forall t ensures t in Tags(logical.outbounds) <==>
                       exists i :: 0 <= i < |logical.outbounds| && logical.outbounds[i].tag == t
    {
      TagsHave(logical.outbounds, t);
    }
  }

  // The target spells its outbound's tag, '@', and a text that ends with a dot.
  predicate Spells(t: Tag, target: Tag) {
    |target| > |t| + 1 && target[..|t| + 1] == t + "@" && target[|target| - 1] == '.'
  }

  /** What a table of targets is refused for: no outbound, a repeated or a reserved tag, an outbound of a protocol
      without a target, one of another outbound, a shared target, or one that does not spell its outbound. */
  lemma ManageableMeans(logical: Logical, targets: map<Tag, Tag>)
    ensures Manageable(logical, targets) <==>
              var tags := Tags(logical.outbounds);
              && tags != [] && NoRepeats(tags)
              && (forall t :: t in tags ==> !("bypass-" <= t) && '@' !in t)
              && (forall t :: t in targets <==> t in tags && "proxy-" <= t)
              && (forall t, u :: t in targets && u in targets && targets[t] == targets[u] ==> t == u)
              && (forall t :: t in targets ==> Spells(t, targets[t]))
  {
    var tags := Tags(logical.outbounds);
    forall t ensures t in tags <==> exists i :: 0 <= i < |logical.outbounds| && logical.outbounds[i].tag == t {
      TagsHave(logical.outbounds, t);
    }
    assert forall t :: t in ManagedTags(logical) <==> t in tags && "proxy-" <= t;
    assert (forall t :: t in tags ==> !Reserved(t)) <==>
           (forall i :: 0 <= i < |logical.outbounds| ==> !Reserved(logical.outbounds[i].tag)) by {
      forall i | 0 <= i < |logical.outbounds| ensures logical.outbounds[i].tag in tags {
        assert tags[i] == logical.outbounds[i].tag;
      }
    }
    forall t | t in targets
      ensures Spells(t, targets[t]) <==> t + "@" <= targets[t] && targets[t][|targets[t]| - 1] == '.'
    {
      if t + "@" <= targets[t] && targets[t][|targets[t]| - 1] == '.' {
        assert (t + "@")[|t|] == '@';
      }
    }
  }

  // ---------------------------------------------------------------------------------------------
  // What a receipt guarantees about handler tags.

  // Every selected tag is a handler tag of its own outbound and of no other, retained tags differ from each other and
  // from every selected one, and there are not too many.
  predicate TagsOrderly(r: Receipt, maxRetained: nat) {
    && Manageable(r.logical, r.targets) && NoRepeats(r.retained) && |r.retained| <= maxRetained
    && forall k :: k in r.targets ==> r.targets[k] !in r.retained
  }

  // The core that the receipt describes has all these handlers.
  predicate Known(r: Receipt) {
    && (forall k :: k in r.targets ==> r.targets[k] in r.observed.handlers)
    && forall i :: 0 <= i < |r.retained| ==> r.retained[i] in r.observed.handlers
  }

  predicate Orderly(r: Receipt, maxRetained: nat) {
    TagsOrderly(r, maxRetained) && Known(r)
  }

  // The receipt after a hot apply selects a new tag and retains the old one.
  function Switched(r: Receipt, logical: Tag, newTag: Tag, desired: Logical, generation: nat,
                    observed: Observation): Receipt
    requires logical in r.targets
  {
    r.(logical := desired, targets := r.targets[logical := newTag], generation := generation,
       retained := r.retained + [r.targets[logical]], observed := observed)
  }

  // The receipt after a retained handler is detached.
  function Detached(r: Receipt, target: Tag): Receipt {
    r.(retained := Removed(r.retained, target), observed := r.observed.(handlers := r.observed.handlers - {target}))
  }

  // list.remove: the first occurrence goes.
  function Removed(tags: seq<Tag>, target: Tag): seq<Tag> {
    if tags == [] then [] else if tags[0] == target then tags[1..] else [tags[0]] + Removed(tags[1..], target)
  }

  lemma {:induction false} RemovedTags(tags: seq<Tag>, target: Tag)
    requires NoRepeats(tags)
    ensures NoRepeats(Removed(tags, target)) && |Removed(tags, target)| <= |tags|
    ensures forall x :: x in Removed(tags, target) <==> x in tags && x != target
    ensures target in tags ==> |Removed(tags, target)| == |tags| - 1
  {
    if tags != [] && tags[0] != target {
      RemovedTags(tags[1..], target);
      var rest := Removed(tags[1..], target);
      assert forall i :: 0 <= i < |rest| ==> rest[i] in tags[1..];
    }
  }

  lemma RetainsOneMore(retained: seq<Tag>, last: Tag)
    requires NoRepeats(retained) && last !in retained
    ensures NoRepeats(retained + [last])
  {
  }

  // A tag that the described core does not have is neither selected nor retained.
  lemma FreshTag(r: Receipt, newTag: Tag)
    requires Known(r) && newTag !in r.observed.handlers
    ensures newTag !in r.retained && forall k :: k in r.targets ==> r.targets[k] != newTag
  {
    assert forall i :: 0 <= i < |r.retained| ==> r.retained[i] != newTag;
  }

  // The tag that is no longer selected joins the retained ones; no other selection is its equal.
  lemma SwitchedApart(targets: map<Tag, Tag>, retained: seq<Tag>, logical: Tag, newTag: Tag, next: map<Tag, Tag>,
                      kept: seq<Tag>)
    requires logical in targets && OthersDiffer(targets) && newTag !in retained && newTag != targets[logical]
    requires forall k :: k in targets ==> targets[k] !in retained
    requires next == targets[logical := newTag] && kept == retained + [targets[logical]]
    ensures forall k :: k in next ==> next[k] !in kept
  {
    forall k | k in next ensures next[k] !in kept {
      if k != logical { assert targets[k] !in retained && targets[k] != targets[logical]; }
    }
  }

  lemma SwitchedKnown(r: Receipt, logical: Tag, newTag: Tag, desired: Logical, generation: nat, observed: Observation)
    requires Known(r) && logical in r.targets && observed.handlers.Keys == r.observed.handlers.Keys + {newTag}
    ensures Known(Switched(r, logical, newTag, desired, generation, observed))
  {
    var next := Switched(r, logical, newTag, desired, generation, observed);
    assert forall h :: h in r.observed.handlers || h == newTag ==> h in observed.handlers.Keys;
    forall i | 0 <= i < |next.retained| ensures next.retained[i] in next.observed.handlers {
      if i < |r.retained| { assert next.retained[i] == r.retained[i]; }
    }
  }

  /** Selecting a tag that the described core does not have keeps tags orderly, and known if it has it now. */
  lemma SwitchedIsOrderly(r: Receipt, logical: Tag, newTag: Tag, desired: Logical, generation: nat,
                          observed: Observation, maxRetained: nat)
    requires Orderly(r, maxRetained) && logical in r.targets && |r.retained| < maxRetained
    requires newTag !in r.observed.handlers && Manageable(desired, r.targets[logical := newTag])
    ensures TagsOrderly(Switched(r, logical, newTag, desired, generation, observed), maxRetained)
    ensures observed.handlers.Keys == r.observed.handlers.Keys + {newTag} ==>
              Known(Switched(r, logical, newTag, desired, generation, observed))
  {
    var next := Switched(r, logical, newTag, desired, generation, observed);
    FreshTag(r, newTag);
    SwitchedApart(r.targets, r.retained, logical, newTag, next.targets, next.retained);
    RetainsOneMore(r.retained, r.targets[logical]);
    if observed.handlers.Keys == r.observed.handlers.Keys + {newTag} {
      SwitchedKnown(r, logical, newTag, desired, generation, observed);
    }
  }

  lemma DetachedIsOrderly(r: Receipt, target: Tag, maxRetained: nat)
    requires TagsOrderly(r, maxRetained) && target in r.retained
    ensures TagsOrderly(Detached(r, target), maxRetained) && |Detached(r, target).retained| == |r.retained| - 1
    ensures Known(r) ==> Known(Detached(r, target))
    ensures Detached(r, target).targets == r.targets
  {
    RemovedTags(r.retained, target);
    var next := Detached(r, target);
    forall i | 0 <= i < |next.retained| && Known(r) ensures next.retained[i] in next.observed.handlers {
      assert next.retained[i] in r.retained;
    }
  }

  /** The receipt of a controlled load is orderly, whatever came before. */
  lemma LoadedIsOrderly(r: Receipt, maxRetained: nat)
    requires Manageable(r.logical, r.targets) && r.retained == []
    requires r.observed.handlers.Keys == LoadedTags(r.logical, r.targets)
    ensures Orderly(r, maxRetained)
  {
    forall k | k in r.targets ensures r.targets[k] in r.observed.handlers {
      var i :| 0 <= i < |r.logical.outbounds| && r.logical.outbounds[i].tag == k;
      assert r.targets[k] in LoadedTags(r.logical, r.targets);
    }
  }
}
