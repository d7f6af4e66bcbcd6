/**
 DNS responses (parse_response in app/route_dns_batch.py): validate the header and the question, walk the
 records, follow CNAMEs, and return the addresses with a bounded lifetime (RFC 1035, sections 4.1.1 to 4.1.3).
 */
module DnsResponses {
  import opened Wrappers
  import opened DnsNames

  datatype Query = Query(transaction: nat, domain: string, v6: bool)

  datatype Record =
    | Alias(owner: string, target: string, ttl: nat)
    | Host(owner: string, address: Bytes, ttl: nat)

  // What the section walk has gathered, or the ValueError it raised.
  datatype Walk = Walk(offset: nat, records: seq<Record>, negativeTtl: nat) | Broken

  datatype Response =
    | Invalid
    | RetryOverTcp
    | Answer(addresses: set<Bytes>, ttl: nat, succeeded: bool)

  const MAX_TTL := 300
  const MAX_NEGATIVE_TTL := 30
  const CNAME_ROUNDS := 16

  function Word(packet: Bytes, i: nat): nat
    requires i + 2 <= |packet|
  {
    var high: nat := packet[i];
    high * 256 + packet[i + 1]
  }

  function LongWord(packet: Bytes, i: nat): nat
    requires i + 4 <= |packet|
  {
    Word(packet, i) * 65536 + Word(packet, i + 2)
  }

  function QueryType(v6: bool): nat { if v6 then 28 else 1 }

  function AddressSize(v6: bool): nat { if v6 then 16 else 4 }

  // The length of the run of zero groups that starts at group i of an IPv6 address.
  function ZeroRun(a: Bytes, i: nat): nat
    requires |a| == 16
    decreases 8 - i
  {
    if i >= 8 || Word(a, 2 * i) != 0 then 0 else 1 + ZeroRun(a, i + 1)
  }

  // The canonical text starts with "::": the first longest run of two or more zero groups is at the front.
  predicate StartsWithColons(a: Bytes)
    requires |a| == 16
  {
    ZeroRun(a, 0) >= 2 && forall i: nat :: i < 8 ==> ZeroRun(a, i) <= ZeroRun(a, 0)
  }

  // The established filter of local and private ranges, with only 172.16 of its block.
  predicate Usable(a: Bytes, v6: bool)
    requires |a| == AddressSize(v6)
  {
    if v6 then !StartsWithColons(a) && a[0] !in {0xfc, 0xfd, 0xfe}
    else a[0] !in {0, 127, 10} && !(a[0] == 172 && a[1] == 16) && !(a[0] == 192 && a[1] == 168)
  }

  // The fixed part of a record behind its owner name.
  datatype Fixed = Fixed(kind: nat, class_: nat, ttl: nat, data: nat, end: nat)

  function ReadFixed(packet: Bytes, offset: nat): Option<Fixed> {
    if offset + 10 > |packet| then None
    else
      var end := offset + 10 + Word(packet, offset + 8);
      if end > |packet| then None
      else Some(Fixed(Word(packet, offset), Word(packet, offset + 2), LongWord(packet, offset + 4), offset + 10, end))
  }

  datatype Section = InAnswer | InAuthority | InAdditional

  // The records that one resource record adds, or None when its data is malformed.
  function Gathered(packet: Bytes, owner: string, f: Fixed, section: Section, v6: bool): Option<seq<Record>>
    requires f.data <= f.end <= |packet|
  {
    if f.class_ != 1 || section != InAnswer then Some([])
    else if f.kind == 5 then
      var target := ReadNameAt(packet, f.data);
      if target.Malformed? || target.end != f.end then None else Some([Alias(owner, target.text, f.ttl)])
    else if f.kind == QueryType(v6) && f.end - f.data == AddressSize(v6) && Usable(packet[f.data..f.end], v6) then
      Some([Host(owner, packet[f.data..f.end], f.ttl)])
    else Some([])
  }

  // The lifetime of a negative answer after one resource record, or None when a SOA's names are malformed.
  function Negative(packet: Bytes, f: Fixed, section: Section, before: nat): Option<nat>
    requires f.data <= f.end <= |packet|
  {
    if f.class_ != 1 || f.kind != 6 || section != InAuthority then Some(before)
    else
      var first := ReadNameAt(packet, f.data);
      if first.Malformed? then None
      else
        var second := ReadNameAt(packet, first.end);
        if second.Malformed? then None
        else if second.end + 20 == f.end then Some(Min(MAX_NEGATIVE_TTL, Min(f.ttl, LongWord(packet, f.end - 4))))
        else Some(before)
  }

  function OneRecord(packet: Bytes, w: Walk, section: Section, v6: bool): Walk
    requires w.Walk?
  {
    var owner := ReadNameAt(packet, w.offset);
    if owner.Malformed? then Broken
    else
      var fixed := ReadFixed(packet, owner.end);
      if fixed.None? then Broken
      else
        var more := Gathered(packet, owner.text, fixed.value, section, v6);
        var negative := Negative(packet, fixed.value, section, w.negativeTtl);
        if more.None? || negative.None? then Broken
        else Walk(fixed.value.end, w.records + more.value, negative.value)
  }

  function SectionOf(number: nat, answers: nat, authorities: nat): Section {
    if number < answers then InAnswer else if number < answers + authorities then InAuthority else InAdditional
  }

  function Sections(packet: Bytes, start: nat, number: nat, answers: nat, authorities: nat, v6: bool): Walk {
    if number == 0 then Walk(start, [], 0)
    else
      var w := Sections(packet, start, number - 1, answers, authorities, v6);
      if w.Broken? then Broken else OneRecord(packet, w, SectionOf(number - 1, answers, authorities), v6)
  }

  // The names that the aliases of accepted owners point to.
  function Targets(records: seq<Record>, accepted: set<string>): set<string> {
    set i | 0 <= i < |records| && records[i].Alias? && records[i].owner in accepted :: records[i].target
  }

  function Closure(records: seq<Record>, accepted: set<string>, rounds: nat): set<string>
    decreases rounds
  {
    if rounds == 0 || Targets(records, accepted) <= accepted then accepted
    else Closure(records, accepted + Targets(records, accepted), rounds - 1)
  }

  // The smallest of the limit and every lifetime of an accepted owner's record.
  function Lifetime(records: seq<Record>, accepted: set<string>): nat {
    if records == [] then MAX_TTL
    else
      var last := records[|records| - 1];
      var rest := Lifetime(records[..|records| - 1], accepted);
      if last.owner in accepted then Min(rest, last.ttl) else rest
  }

  function Addresses(records: seq<Record>, accepted: set<string>): set<Bytes> {
    set i | 0 <= i < |records| && records[i].Host? && records[i].owner in accepted :: records[i].address
  }

  // The header's verdict: a mismatch, a truncation to retry, a refused code, or the sections to walk.
  datatype Opening = Rejected | Truncated | Refused
                   | Walkable(name: string, start: nat, answers: nat, authorities: nat, total: nat, nameError: bool)

  function Open(packet: Bytes, q: Query): Opening {
    if |packet| < 12 then Rejected
    else
      var flags := Word(packet, 2);
      if Word(packet, 0) != q.transaction || flags / 32768 % 2 == 0 || flags / 2048 % 16 != 0
         || Word(packet, 4) != 1 then Rejected
      else
        var question := ReadNameAt(packet, 12);
        if question.Malformed? || question.text != Lower(StripDots(q.domain)) then Rejected
        else if question.end + 4 > |packet| || Word(packet, question.end) != QueryType(q.v6)
                || Word(packet, question.end + 2) != 1 then Rejected
        else if flags / 512 % 2 == 1 then Truncated
        else if flags % 16 != 0 && flags % 16 != 3 then Refused
        else
          Walkable(question.text, question.end + 4, Word(packet, 6), Word(packet, 8),
                   Word(packet, 6) + Word(packet, 8) + Word(packet, 10), flags % 16 == 3)
  }

  function Conclude(o: Opening, records: seq<Record>, negativeTtl: nat): Response
    requires o.Walkable?
  {
    var accepted := Closure(records, {o.name}, CNAME_ROUNDS);
    var values := if o.nameError then {} else Addresses(records, accepted);
    Answer(values, if values == {} then negativeTtl else Lifetime(records, accepted), true)
  }

  function Parse(packet: Bytes, q: Query): Response {
    match Open(packet, q)
    case Rejected => Invalid
    case Truncated => RetryOverTcp
    case Refused => Answer({}, 0, false)
    case Walkable(name, start, answers, authorities, total, nameError) =>
      var w := Sections(packet, start, total, answers, authorities, q.v6);
      if w.Broken? then Invalid else Conclude(Open(packet, q), w.records, w.negativeTtl)
  }

  // The loop over all sections.
  method WalkSections(packet: Bytes, start: nat, total: nat, answers: nat, authorities: nat, v6: bool) returns (w: Walk)
    ensures w == Sections(packet, start, total, answers, authorities, v6)
  {
    w := Walk(start, [], 0);
    for number := 0 to total
      invariant w.Walk? && w == Sections(packet, start, number, answers, authorities, v6)
    {
      w := OneRecord(packet, w, SectionOf(number, answers, authorities), v6);
      assert w == Sections(packet, start, number + 1, answers, authorities, v6);
      if w.Broken? {
        BrokenStays(packet, start, number + 1, total, answers, authorities, v6);
        return;
      }
    }
  }

  // The rounds of the CNAME closure.
  method AcceptOwners(records: seq<Record>, name: string) returns (accepted: set<string>)
    ensures accepted == Closure(records, {name}, CNAME_ROUNDS)
  {
    accepted := {name};
    var rounds := CNAME_ROUNDS;
    while rounds > 0 && !(Targets(records, accepted) <= accepted)
      invariant 0 <= rounds <= CNAME_ROUNDS
      invariant Closure(records, accepted, rounds) == Closure(records, {name}, CNAME_ROUNDS)
    {
      accepted := accepted + Targets(records, accepted);
      rounds := rounds - 1;
    }
  }

  // The last loop: the addresses of accepted owners and the smallest lifetime among their records.
  method Collect(records: seq<Record>, accepted: set<string>) returns (values: set<Bytes>, lifetime: nat)
    ensures values == Addresses(records, accepted) && lifetime == Lifetime(records, accepted)
  {
    lifetime, values := MAX_TTL, {};
    for i := 0 to |records|
      invariant lifetime == Lifetime(records[..i], accepted)
      invariant values == Addresses(records[..i], accepted)
    {
      assert records[..i + 1][..i] == records[..i];
      if records[i].owner in accepted {
        lifetime := Min(lifetime, records[i].ttl);
        if records[i].Host? { values := values + {records[i].address}; }
      }
    }
    assert records[..|records|] == records;
  }

  method ParseResponse(packet: Bytes, q: Query) returns (r: Response)
    ensures r == Parse(packet, q)
  {
    var o := Open(packet, q);
    match o
    case Rejected => return Invalid;
    case Truncated => return RetryOverTcp;
    case Refused => return Answer({}, 0, false);
    case Walkable(name, start, answers, authorities, total, nameError) =>
      var w := WalkSections(packet, start, total, answers, authorities, q.v6);
      if w.Broken? { return Invalid; }
      var accepted := AcceptOwners(w.records, name);
      var values, lifetime := Collect(w.records, accepted);
      if nameError { values := {}; }
      r := Answer(values, if values == {} then w.negativeTtl else lifetime, true);
  }

  lemma {:induction false} BrokenStays(packet: Bytes, start: nat, number: nat, total: nat, answers: nat,
                                       authorities: nat, v6: bool)
    requires number <= total && Sections(packet, start, number, answers, authorities, v6).Broken?
    ensures Sections(packet, start, total, answers, authorities, v6).Broken?
    decreases total - number
  {
    if number < total { BrokenStays(packet, start, number + 1, total, answers, authorities, v6); }
  }

  // ---------------------------------------------------------------------------------------------
  // What an answer means.

  ghost predicate Aliases(records: seq<Record>, from: string, to: string) {
    exists i :: 0 <= i < |records| && records[i].Alias? && records[i].owner == from && records[i].target == to
  }

  ghost predicate Chain(records: seq<Record>, path: seq<string>) {
    path != [] && forall i :: 0 <= i < |path| - 1 ==> Aliases(records, path[i], path[i + 1])
  }

  // A chain of at most `hops` aliases leads from one of the names to this one.
  ghost predicate Reaches(records: seq<Record>, names: set<string>, hops: nat, to: string) {
    exists path :: Chain(records, path) && path[0] in names && path[|path| - 1] == to && |path| <= hops + 1
  }

  lemma OneHop(records: seq<Record>, accepted: set<string>, to: string)
    ensures to in Targets(records, accepted) <==> exists from :: from in accepted && Aliases(records, from, to)
  {
  }

  lemma {:induction false} ClosureIsSound(records: seq<Record>, accepted: set<string>, rounds: nat, to: string)
    requires to in Closure(records, accepted, rounds)
    ensures Reaches(records, accepted, rounds, to)
    decreases rounds
  {
    if to in accepted {
      assert Chain(records, [to]);
    } else {
      var wider := accepted + Targets(records, accepted);
      ClosureIsSound(records, wider, rounds - 1, to);
      var path :| Chain(records, path) && path[0] in wider && path[|path| - 1] == to && |path| <= rounds;
      if path[0] in accepted {
        assert Reaches(records, accepted, rounds, to);
      } else {
        OneHop(records, accepted, path[0]);
        var from :| from in accepted && Aliases(records, from, path[0]);
        var longer := [from] + path;
        forall i | 0 <= i < |longer| - 1 ensures Aliases(records, longer[i], longer[i + 1]) {
          if i > 0 { assert Aliases(records, path[i - 1], path[i]); }
        }
        assert Chain(records, longer);
      }
    }
  }

  lemma {:induction false} ClosedUnderChains(records: seq<Record>, accepted: set<string>, path: seq<string>)
    requires Targets(records, accepted) <= accepted && Chain(records, path) && path[0] in accepted
    ensures path[|path| - 1] in accepted
    decreases |path|
  {
    if |path| > 1 {
      assert Aliases(records, path[0], path[1]);
      OneHop(records, accepted, path[1]);
      assert Chain(records, path[1..]) by {
        forall i | 0 <= i < |path[1..]| - 1 ensures Aliases(records, path[1..][i], path[1..][i + 1]) {
          assert Aliases(records, path[i + 1], path[i + 2]);
        }
      }
      ClosedUnderChains(records, accepted, path[1..]);
    }
  }

  lemma {:induction false} ClosureIsComplete(records: seq<Record>, accepted: set<string>, rounds: nat,
                                             path: seq<string>)
    requires Chain(records, path) && path[0] in accepted && |path| <= rounds + 1
    ensures path[|path| - 1] in Closure(records, accepted, rounds)
    decreases rounds
  {
    if Targets(records, accepted) <= accepted {
      ClosedUnderChains(records, accepted, path);
    } else if |path| == 1 {
      ClosureGrows(records, accepted, rounds);
    } else {
      assert Aliases(records, path[0], path[1]);
      OneHop(records, accepted, path[1]);
      assert Chain(records, path[1..]) by {
        forall i | 0 <= i < |path[1..]| - 1 ensures Aliases(records, path[1..][i], path[1..][i + 1]) {
          assert Aliases(records, path[i + 1], path[i + 2]);
        }
      }
      ClosureIsComplete(records, accepted + Targets(records, accepted), rounds - 1, path[1..]);
    }
  }

  lemma {:induction false} ClosureGrows(records: seq<Record>, accepted: set<string>, rounds: nat)
    ensures accepted <= Closure(records, accepted, rounds)
    decreases rounds
  {
    if rounds > 0 && !(Targets(records, accepted) <= accepted) {
      ClosureGrows(records, accepted + Targets(records, accepted), rounds - 1);
    }
  }

  /** The accepted owners are exactly the names that at most sixteen aliases in a row lead to. */
  lemma AcceptedOwners(records: seq<Record>, name: string, to: string)
    ensures to in Closure(records, {name}, CNAME_ROUNDS) <==> Reaches(records, {name}, CNAME_ROUNDS, to)
  {
    if to in Closure(records, {name}, CNAME_ROUNDS) { ClosureIsSound(records, {name}, CNAME_ROUNDS, to); }
    if Reaches(records, {name}, CNAME_ROUNDS, to) {
      var path :| Chain(records, path) && path[0] in {name} && path[|path| - 1] == to && |path| <= CNAME_ROUNDS + 1;
      ClosureIsComplete(records, {name}, CNAME_ROUNDS, path);
    }
  }

  // Every alias target.
  function AllTargets(records: seq<Record>): set<string> {
    set i | 0 <= i < |records| && records[i].Alias? :: records[i].target
  }

  lemma {:induction false} FewTargetsClose(records: seq<Record>, accepted: set<string>, rounds: nat)
    requires |AllTargets(records) - accepted| <= rounds
    ensures Targets(records, Closure(records, accepted, rounds)) <= Closure(records, accepted, rounds)
    decreases rounds
  {
    var found := Targets(records, accepted);
    assert found <= AllTargets(records);
    if !(found <= accepted) {
      var t :| t in found && t !in accepted;
      var wider := accepted + found;
      assert t in AllTargets(records) - accepted &&
             AllTargets(records) - wider <= (AllTargets(records) - accepted) - {t};
      SubsetSize(AllTargets(records) - wider, (AllTargets(records) - accepted) - {t});
      FewTargetsClose(records, wider, rounds - 1);
    }
  }

  lemma {:induction false} SubsetSize<T>(a: set<T>, b: set<T>)
    requires a <= b
    ensures |a| <= |b|
  {
    if a != {} {
      var x :| x in a;
      SubsetSize(a - {x}, b - {x});
    }
  }

  /** With at most sixteen distinct alias targets the round limit is never felt: every reachable name is accepted. */
  lemma RoundLimitSuffices(records: seq<Record>, name: string, path: seq<string>)
    requires |AllTargets(records)| <= CNAME_ROUNDS && Chain(records, path) && path[0] == name
    ensures path[|path| - 1] in Closure(records, {name}, CNAME_ROUNDS)
  {
    SubsetSize(AllTargets(records) - {name}, AllTargets(records));
    FewTargetsClose(records, {name}, CNAME_ROUNDS);
    ClosureGrows(records, {name}, CNAME_ROUNDS);
    ClosedUnderChains(records, Closure(records, {name}, CNAME_ROUNDS), path);
  }

  lemma {:induction false} LifetimeBound(records: seq<Record>, accepted: set<string>)
    ensures Lifetime(records, accepted) <= MAX_TTL
    ensures forall i :: 0 <= i < |records| && records[i].owner in accepted ==>
              Lifetime(records, accepted) <= records[i].ttl
  {
    if records != [] { LifetimeBound(records[..|records| - 1], accepted); }
  }

  // Where the resource record of this number begins, behind the question.
  function RecordStart(packet: Bytes, start: nat, number: nat): Option<nat> {
    if number == 0 then Some(start)
    else
      var before := RecordStart(packet, start, number - 1);
      if before.None? || ReadNameAt(packet, before.value).Malformed? then None
      else
        var f := ReadFixed(packet, ReadNameAt(packet, before.value).end);
        if f.None? then None else Some(f.value.end)
  }

  // A resource record with this owner name, lifetime, type, class and data stands at the offset.
  ghost predicate StandsAt(packet: Bytes, at: nat, r: Record, v6: bool) {
    && ReadNameAt(packet, at).Name? && ReadNameAt(packet, at).text == r.owner
    && ReadFixed(packet, ReadNameAt(packet, at).end).Some?
    && var f := ReadFixed(packet, ReadNameAt(packet, at).end).value;
       f.class_ == 1 && f.ttl == r.ttl
       && match r
          case Alias(_, target, _) => f.kind == 5 && ReadNameAt(packet, f.data) == Name(target, f.end)
          case Host(_, address, _) => f.kind == QueryType(v6) && packet[f.data..f.end] == address
                                      && |address| == AddressSize(v6) && Usable(address, v6)
  }

  // It is one of the answer section, the first records behind the question.
  ghost predicate StandsIn(packet: Bytes, start: nat, answers: nat, r: Record, v6: bool) {
    exists k: nat :: k < answers && StandsAs(packet, start, k, r, v6)
  }

  ghost predicate StandsAs(packet: Bytes, start: nat, k: nat, r: Record, v6: bool) {
    RecordStart(packet, start, k).Some? && StandsAt(packet, RecordStart(packet, start, k).value, r, v6)
  }

  ghost predicate AllStandIn(packet: Bytes, start: nat, answers: nat, records: seq<Record>, v6: bool) {
    forall i :: 0 <= i < |records| ==> StandsIn(packet, start, answers, records[i], v6)
  }

  // What the walk has after so many records.
  ghost predicate Grounded(packet: Bytes, start: nat, number: nat, answers: nat, w: Walk, v6: bool) {
    && w.Walk? && RecordStart(packet, start, number) == Some(w.offset)
    && w.negativeTtl <= MAX_NEGATIVE_TTL && AllStandIn(packet, start, answers, w.records, v6)
  }

  lemma OneRecordStands(packet: Bytes, start: nat, number: nat, answers: nat, w: Walk, section: Section, v6: bool)
    requires number > 0 && Grounded(packet, start, number - 1, answers, w, v6)
    requires (section == InAnswer ==> number <= answers)
    requires OneRecord(packet, w, section, v6).Walk?
    ensures Grounded(packet, start, number, answers, OneRecord(packet, w, section, v6), v6)
  {
    var next := OneRecord(packet, w, section, v6);
    forall i | 0 <= i < |next.records| ensures StandsIn(packet, start, answers, next.records[i], v6) {
      if i < |w.records| {
        assert next.records[i] == w.records[i];
      } else {
        assert StandsAt(packet, w.offset, next.records[i], v6);
        assert StandsAs(packet, start, number - 1, next.records[i], v6);
      }
    }
  }

  lemma NothingWalked(packet: Bytes, start: nat, answers: nat, v6: bool)
    ensures Grounded(packet, start, 0, answers, Walk(start, [], 0), v6)
  {
  }

  lemma LastRecord(packet: Bytes, start: nat, number: nat, answers: nat, authorities: nat, v6: bool)
    requires number > 0 && Sections(packet, start, number, answers, authorities, v6).Walk?
    ensures Sections(packet, start, number - 1, answers, authorities, v6).Walk?
    ensures Sections(packet, start, number, answers, authorities, v6) ==
            OneRecord(packet, Sections(packet, start, number - 1, answers, authorities, v6),
                      SectionOf(number - 1, answers, authorities), v6)
  {
  }

  lemma {:induction false} SectionsStandInPacket(packet: Bytes, start: nat, number: nat, answers: nat,
                                                 authorities: nat, v6: bool)
    requires Sections(packet, start, number, answers, authorities, v6).Walk?
    ensures Grounded(packet, start, number, answers, Sections(packet, start, number, answers, authorities, v6), v6)
  {
    if number > 0 {
      LastRecord(packet, start, number, answers, authorities, v6);
      SectionsStandInPacket(packet, start, number - 1, answers, authorities, v6);
      var before := Sections(packet, start, number - 1, answers, authorities, v6);
      OneRecordStands(packet, start, number, answers, before, SectionOf(number - 1, answers, authorities), v6);
    } else {
      NothingWalked(packet, start, answers, v6);
    }
  }

  // A usable record of a name that the question's aliases reach, with this address and no shorter lifetime.
  ghost predicate Justifies(records: seq<Record>, origin: string, rec: Record, address: Bytes, ttl: nat) {
    rec.Host? && rec.address == address && Reaches(records, {origin}, CNAME_ROUNDS, rec.owner) && ttl <= rec.ttl
  }

  /** A parsed answer: each address stands in the answer section as a usable record of the asked type, owned by a name
      that at most sixteen aliases of that section lead to from the question; its lifetime is at most 300 seconds
      and at most that record's, and a negative answer lives at most 30 seconds. */
  lemma AnswerIsJustified(packet: Bytes, q: Query)
    requires Parse(packet, q).Answer? && Open(packet, q).Walkable?
    ensures var r := Parse(packet, q); var o := Open(packet, q);
      var records := Sections(packet, o.start, o.total, o.answers, o.authorities, q.v6).records;
      && o.name == Lower(StripDots(q.domain)) && r.succeeded
      && AllStandIn(packet, o.start, o.answers, records, q.v6)
      && (forall a :: a in r.addresses ==>
            exists i :: 0 <= i < |records| && Justifies(records, o.name, records[i], a, r.ttl))
      && r.ttl <= (if r.addresses == {} then MAX_NEGATIVE_TTL else MAX_TTL)
  {
    var r, o := Parse(packet, q), Open(packet, q);
    var records := Sections(packet, o.start, o.total, o.answers, o.authorities, q.v6).records;
    SectionsStandInPacket(packet, o.start, o.total, o.answers, o.authorities, q.v6);
    var accepted := Closure(records, {o.name}, CNAME_ROUNDS);
    LifetimeBound(records, accepted);
    forall a | a in r.addresses
      ensures exists i :: 0 <= i < |records| && Justifies(records, o.name, records[i], a, r.ttl)
    {
      var i :| 0 <= i < |records| && records[i].Host? && records[i].owner in accepted && records[i].address == a;
      AcceptedOwners(records, o.name, records[i].owner);
      assert Justifies(records, o.name, records[i], a, r.ttl);
    }
  }

  // ---------------------------------------------------------------------------------------------
  // Nothing that stands in the packet is missed.

  lemma LastIsGathered(packet: Bytes, w: Walk, section: Section, r: Record, v6: bool)
    requires w.Walk? && section == InAnswer && StandsAt(packet, w.offset, r, v6)
    requires OneRecord(packet, w, section, v6).Walk?
    ensures r in OneRecord(packet, w, section, v6).records
  {
    var owner := ReadNameAt(packet, w.offset);
    var f := ReadFixed(packet, owner.end).value;
    assert Gathered(packet, owner.text, f, section, v6) == Some([r]);
    assert OneRecord(packet, w, section, v6).records == w.records + [r];
  }

  lemma RecordsStay(packet: Bytes, w: Walk, section: Section, v6: bool)
    requires w.Walk? && OneRecord(packet, w, section, v6).Walk?
    ensures w.records <= OneRecord(packet, w, section, v6).records
  {
  }

  // The walk is where the next record begins.
  lemma WalkedTo(packet: Bytes, start: nat, number: nat, answers: nat, authorities: nat, v6: bool)
    requires Sections(packet, start, number, answers, authorities, v6).Walk?
    ensures RecordStart(packet, start, number) ==
              Some(Sections(packet, start, number, answers, authorities, v6).offset)
  {
    SectionsStandInPacket(packet, start, number, answers, authorities, v6);
  }

  // Walks up to this record and to the next one.
  ghost predicate Neighbours(packet: Bytes, start: nat, k: nat, before: Walk, after: Walk, section: Section, v6: bool) {
    && before.Walk? && after.Walk? && after == OneRecord(packet, before, section, v6)
    && RecordStart(packet, start, k) == Some(before.offset)
  }

  lemma AreNeighbours(packet: Bytes, start: nat, number: nat, answers: nat, authorities: nat, v6: bool)
    requires number > 0 && Sections(packet, start, number, answers, authorities, v6).Walk?
    ensures Neighbours(packet, start, number - 1, Sections(packet, start, number - 1, answers, authorities, v6),
                       Sections(packet, start, number, answers, authorities, v6),
                       SectionOf(number - 1, answers, authorities), v6)
  {
    LastRecord(packet, start, number, answers, authorities, v6);
    WalkedTo(packet, start, number - 1, answers, authorities, v6);
  }

  // One more record: what was listed stays, and what stands there is added.
  lemma GatheredNext(packet: Bytes, start: nat, k: nat, before: Walk, after: Walk, section: Section, v6: bool,
                     r: Record)
    requires Neighbours(packet, start, k, before, after, section, v6)
    ensures r in before.records ==> r in after.records
    ensures section == InAnswer && StandsAs(packet, start, k, r, v6) ==> r in after.records
  {
    RecordsStay(packet, before, section, v6);
    if section == InAnswer && StandsAs(packet, start, k, r, v6) { LastIsGathered(packet, before, section, r, v6); }
  }

  lemma {:induction false} WalkedBefore(packet: Bytes, start: nat, number: nat, answers: nat, authorities: nat,
                                        v6: bool, n: nat)
    requires n <= number && Sections(packet, start, number, answers, authorities, v6).Walk?
    ensures Sections(packet, start, n, answers, authorities, v6).Walk?
    ensures Sections(packet, start, n, answers, authorities, v6).records
            <= Sections(packet, start, number, answers, authorities, v6).records
    decreases number
  {
    if n < number {
      LastRecord(packet, start, number, answers, authorities, v6);
      WalkedBefore(packet, start, number - 1, answers, authorities, v6, n);
      RecordsStay(packet, Sections(packet, start, number - 1, answers, authorities, v6),
                  SectionOf(number - 1, answers, authorities), v6);
    }
  }

  // Whatever stands in the answer section is gathered.
  lemma StandingIsGathered(packet: Bytes, start: nat, number: nat, answers: nat, authorities: nat, v6: bool, k: nat,
                           r: Record)
    requires Sections(packet, start, number, answers, authorities, v6).Walk? && k < number && k < answers
    ensures StandsAs(packet, start, k, r, v6) ==>
              r in Sections(packet, start, number, answers, authorities, v6).records
  {
    WalkedBefore(packet, start, number, answers, authorities, v6, k + 1);
    GatheredThere(packet, start, answers, authorities, v6, k, r);
  }

  lemma GatheredThere(packet: Bytes, start: nat, answers: nat, authorities: nat, v6: bool, k: nat, r: Record)
    requires Sections(packet, start, k + 1, answers, authorities, v6).Walk? && k < answers
    ensures StandsAs(packet, start, k, r, v6) ==> r in Sections(packet, start, k + 1, answers, authorities, v6).records
  {
    AreNeighbours(packet, start, k + 1, answers, authorities, v6);
    GatheredNext(packet, start, k, Sections(packet, start, k, answers, authorities, v6),
                 Sections(packet, start, k + 1, answers, authorities, v6), InAnswer, v6, r);
  }

  ghost predicate AliasStands(packet: Bytes, start: nat, answers: nat, from: string, to: string, v6: bool) {
    exists k: nat, ttl: nat :: k < answers && StandsAs(packet, start, k, Alias(from, to, ttl), v6)
  }

  // At most sixteen aliases of the answer section lead from the question along this path.
  ghost predicate Leads(packet: Bytes, o: Opening, path: seq<string>, v6: bool)
    requires o.Walkable?
  {
    && path != [] && path[0] == o.name && |path| <= CNAME_ROUNDS + 1
    && forall i :: 0 <= i < |path| - 1 ==> AliasStands(packet, o.start, o.answers, path[i], path[i + 1], v6)
  }

  lemma LeadingIsAccepted(packet: Bytes, o: Opening, path: seq<string>, v6: bool)
    requires o.Walkable? && o.answers <= o.total && Leads(packet, o, path, v6)
    requires Sections(packet, o.start, o.total, o.answers, o.authorities, v6).Walk?
    ensures var records := Sections(packet, o.start, o.total, o.answers, o.authorities, v6).records;
      path[|path| - 1] in Closure(records, {o.name}, CNAME_ROUNDS)
  {
    var records := Sections(packet, o.start, o.total, o.answers, o.authorities, v6).records;
    forall i | 0 <= i < |path| - 1 ensures Aliases(records, path[i], path[i + 1]) {
      assert AliasStands(packet, o.start, o.answers, path[i], path[i + 1], v6);
      var k: nat, ttl: nat :|
        k < o.answers && StandsAs(packet, o.start, k, Alias(path[i], path[i + 1], ttl), v6);
      StandingIsGathered(packet, o.start, o.total, o.answers, o.authorities, v6, k, Alias(path[i], path[i + 1], ttl));
    }
    assert Chain(records, path);
    ClosureIsComplete(records, {o.name}, CNAME_ROUNDS, path);
  }

  /** Every usable record of the asked type that stands in the answer section, of a name that at most sixteen aliases of
      that section lead to, is answered unless the reply says that the name does not exist; and no record of such a name
      outlives the answer. */
  lemma AnswerIsComplete(packet: Bytes, q: Query, k: nat, r: Record, path: seq<string>)
    requires Parse(packet, q).Answer? && Open(packet, q).Walkable?
    requires var o := Open(packet, q);
      k < o.answers && StandsAs(packet, o.start, k, r, q.v6) && Leads(packet, o, path, q.v6)
      && path[|path| - 1] == r.owner
    ensures r.Host? && !Open(packet, q).nameError ==> r.address in Parse(packet, q).addresses
    ensures Parse(packet, q).addresses != {} ==> Parse(packet, q).ttl <= r.ttl
  {
    var o := Open(packet, q);
    var records := Sections(packet, o.start, o.total, o.answers, o.authorities, q.v6).records;
    StandingIsGathered(packet, o.start, o.total, o.answers, o.authorities, q.v6, k, r);
    LeadingIsAccepted(packet, o, path, q.v6);
    LifetimeBound(records, Closure(records, {o.name}, CNAME_ROUNDS));
  }

  lemma {:induction false} LifetimeIsSome(records: seq<Record>, accepted: set<string>)
    ensures Lifetime(records, accepted) == MAX_TTL
            || exists i :: 0 <= i < |records| && records[i].owner in accepted
                           && records[i].ttl == Lifetime(records, accepted)
  {
    if records != [] {
      var front, last := records[..|records| - 1], records[|records| - 1];
      LifetimeIsSome(front, accepted);
      if last.owner in accepted && Lifetime(records, accepted) == last.ttl {
        assert records[|records| - 1].owner in accepted;
      } else if Lifetime(front, accepted) != MAX_TTL {
        var i :| 0 <= i < |front| && front[i].owner in accepted && front[i].ttl == Lifetime(front, accepted);
        assert records[i] == front[i];
      }
    }
  }

  ghost predicate LivesFor(records: seq<Record>, origin: string, rec: Record, ttl: nat) {
    rec.ttl == ttl && Reaches(records, {origin}, CNAME_ROUNDS, rec.owner)
  }

  /** The lifetime of an answer with addresses is 300 seconds or exactly that of a record that stands in the answer
      section for a name that the question's aliases reach; a reply that says the name does not exist has none. */
  lemma LifetimeIsExact(packet: Bytes, q: Query)
    requires Parse(packet, q).Answer? && Open(packet, q).Walkable?
    ensures var r := Parse(packet, q); var o := Open(packet, q);
      var records := Sections(packet, o.start, o.total, o.answers, o.authorities, q.v6).records;
      && AllStandIn(packet, o.start, o.answers, records, q.v6) && (o.nameError ==> r.addresses == {})
      && (r.addresses != {} && r.ttl != MAX_TTL ==>
            exists i :: 0 <= i < |records| && LivesFor(records, o.name, records[i], r.ttl))
  {
    var r, o := Parse(packet, q), Open(packet, q);
    var records := Sections(packet, o.start, o.total, o.answers, o.authorities, q.v6).records;
    SectionsStandInPacket(packet, o.start, o.total, o.answers, o.authorities, q.v6);
    var accepted := Closure(records, {o.name}, CNAME_ROUNDS);
    LifetimeIsSome(records, accepted);
    if r.addresses != {} && r.ttl != MAX_TTL {
      var i :| 0 <= i < |records| && records[i].owner in accepted && records[i].ttl == Lifetime(records, accepted);
      AcceptedOwners(records, o.name, records[i].owner);
      assert LivesFor(records, o.name, records[i], r.ttl);
    }
  }

  // The record of this number, once the names before it are read.
  ghost predicate FixedAt(packet: Bytes, start: nat, k: nat, f: Fixed) {
    && RecordStart(packet, start, k).Some?
    && var owner := ReadNameAt(packet, RecordStart(packet, start, k).value);
       owner.Name? && ReadFixed(packet, owner.end) == Some(f)
  }

  // An SOA record: two names, and behind them exactly five numbers, of which the last is the minimum.
  ghost predicate SoaStands(packet: Bytes, start: nat, k: nat, ttl: nat, minimum: nat) {
    exists f ::
      && FixedAt(packet, start, k, f) && f.class_ == 1 && f.kind == 6 && f.ttl == ttl && f.end <= |packet|
      && ReadNameAt(packet, f.data).Name? && ReadNameAt(packet, ReadNameAt(packet, f.data).end).Name?
      && ReadNameAt(packet, ReadNameAt(packet, f.data).end).end + 20 == f.end && LongWord(packet, f.end - 4) == minimum
  }

  // One of the authority section.
  predicate InAuthorities(k: nat, answers: nat, authorities: nat) {
    answers <= k < answers + authorities
  }

  ghost predicate NoSoaFrom(packet: Bytes, start: nat, from: nat, number: nat, answers: nat, authorities: nat) {
    forall k: nat, ttl: nat, minimum: nat :: from <= k < number && InAuthorities(k, answers, authorities) ==>
      !SoaStands(packet, start, k, ttl, minimum)
  }

  // The last SOA record decides the lifetime of a negative answer.
  ghost predicate LastSoa(packet: Bytes, start: nat, k: nat, number: nat, answers: nat, authorities: nat, ttl: nat,
                          minimum: nat) {
    && k < number && InAuthorities(k, answers, authorities) && SoaStands(packet, start, k, ttl, minimum)
    && NoSoaFrom(packet, start, k + 1, number, answers, authorities)
  }

  lemma FixedOnce(packet: Bytes, start: nat, k: nat, f: Fixed, g: Fixed)
    requires FixedAt(packet, start, k, f) && FixedAt(packet, start, k, g)
    ensures f == g
  {
  }

  lemma SoaThereDecides(packet: Bytes, start: nat, k: nat, f: Fixed, before: nat, ttl: nat, minimum: nat)
    requires FixedAt(packet, start, k, f) && f.data <= f.end <= |packet|
    requires Negative(packet, f, InAuthority, before).Some?
    ensures SoaStands(packet, start, k, ttl, minimum) ==>
              Negative(packet, f, InAuthority, before).value == Min(MAX_NEGATIVE_TTL, Min(ttl, minimum))
  {
    if SoaStands(packet, start, k, ttl, minimum) {
      var g :| FixedAt(packet, start, k, g) && g.class_ == 1 && g.kind == 6 && g.ttl == ttl && g.end <= |packet|
        && ReadNameAt(packet, g.data).Name? && ReadNameAt(packet, ReadNameAt(packet, g.data).end).Name?
        && ReadNameAt(packet, ReadNameAt(packet, g.data).end).end + 20 == g.end
        && LongWord(packet, g.end - 4) == minimum;
      FixedOnce(packet, start, k, f, g);
    }
  }

  lemma SoaDecides(packet: Bytes, start: nat, k: nat, f: Fixed, before: nat)
    requires FixedAt(packet, start, k, f) && f.data <= f.end <= |packet|
    requires Negative(packet, f, InAuthority, before).Some?
    ensures Negative(packet, f, InAuthority, before) == Some(before) || SoaThere(packet, start, k)
    ensures SoaSays(packet, start, k, Negative(packet, f, InAuthority, before).value)
  {
    if Negative(packet, f, InAuthority, before) != Some(before) {
      assert SoaStands(packet, start, k, f.ttl, LongWord(packet, f.end - 4));
    }
    forall ttl: nat, minimum: nat | SoaStands(packet, start, k, ttl, minimum)
      ensures Negative(packet, f, InAuthority, before).value == Min(MAX_NEGATIVE_TTL, Min(ttl, minimum))
    {
      SoaThereDecides(packet, start, k, f, before, ttl, minimum);
    }
  }

  lemma NegativeRead(packet: Bytes, start: nat, k: nat, before: Walk, after: Walk, section: Section, v6: bool)
    returns (f: Fixed)
    requires Neighbours(packet, start, k, before, after, section, v6)
    ensures FixedAt(packet, start, k, f) && f.data <= f.end <= |packet|
    ensures Negative(packet, f, section, before.negativeTtl) == Some(after.negativeTtl)
  {
    f := ReadFixed(packet, ReadNameAt(packet, before.offset).end).value;
  }

  // What one record does to the negative lifetime.
  ghost predicate SoaEffect(packet: Bytes, start: nat, k: nat, answers: nat, authorities: nat, before: nat,
                            after: nat) {
    && (after == before || (InAuthorities(k, answers, authorities) && SoaThere(packet, start, k)))
    && (InAuthorities(k, answers, authorities) ==> SoaSays(packet, start, k, after))
  }

  ghost predicate SoaThere(packet: Bytes, start: nat, k: nat) {
    exists ttl: nat, minimum: nat :: SoaStands(packet, start, k, ttl, minimum)
  }

  ghost predicate SoaSays(packet: Bytes, start: nat, k: nat, negative: nat) {
    forall ttl: nat, minimum: nat :: SoaStands(packet, start, k, ttl, minimum) ==>
      negative == Min(MAX_NEGATIVE_TTL, Min(ttl, minimum))
  }

  lemma NegativeAfter(packet: Bytes, start: nat, k: nat, answers: nat, authorities: nat, before: Walk, after: Walk,
                      v6: bool)
    requires Neighbours(packet, start, k, before, after, SectionOf(k, answers, authorities), v6)
    ensures SoaEffect(packet, start, k, answers, authorities, before.negativeTtl, after.negativeTtl)
  {
    var f := NegativeRead(packet, start, k, before, after, SectionOf(k, answers, authorities), v6);
    if InAuthorities(k, answers, authorities) { SoaDecides(packet, start, k, f, before.negativeTtl); }
  }

  lemma NegativeStep(packet: Bytes, start: nat, k: nat, answers: nat, authorities: nat, v6: bool)
    requires Sections(packet, start, k + 1, answers, authorities, v6).Walk?
    ensures Sections(packet, start, k, answers, authorities, v6).Walk?
    ensures SoaEffect(packet, start, k, answers, authorities,
                      Sections(packet, start, k, answers, authorities, v6).negativeTtl,
                      Sections(packet, start, k + 1, answers, authorities, v6).negativeTtl)
  {
    AreNeighbours(packet, start, k + 1, answers, authorities, v6);
    NegativeAfter(packet, start, k, answers, authorities, Sections(packet, start, k, answers, authorities, v6),
                  Sections(packet, start, k + 1, answers, authorities, v6), v6);
  }

  lemma NegativeKept(packet: Bytes, start: nat, k: nat, answers: nat, authorities: nat, v6: bool)
    requires Sections(packet, start, k + 1, answers, authorities, v6).Walk?
    requires InAuthorities(k, answers, authorities) ==> !SoaThere(packet, start, k)
    ensures Sections(packet, start, k, answers, authorities, v6).Walk?
    ensures Sections(packet, start, k, answers, authorities, v6).negativeTtl
            == Sections(packet, start, k + 1, answers, authorities, v6).negativeTtl
  {
    NegativeStep(packet, start, k, answers, authorities, v6);
  }

  // The lifetime of a negative answer after so many records.
  function NegativeAt(packet: Bytes, start: nat, n: nat, answers: nat, authorities: nat, v6: bool): nat {
    var w := Sections(packet, start, n, answers, authorities, v6);
    if w.Walk? then w.negativeTtl else 0
  }

  lemma NegativeWithin(packet: Bytes, start: nat, from: nat, number: nat, answers: nat, authorities: nat, v6: bool,
                       k: nat)
    requires from <= k < number && Sections(packet, start, number, answers, authorities, v6).Walk?
    ensures NoSoaFrom(packet, start, from, number, answers, authorities) ==>
              NegativeAt(packet, start, k, answers, authorities, v6)
              == NegativeAt(packet, start, k + 1, answers, authorities, v6)
  {
    if NoSoaFrom(packet, start, from, number, answers, authorities) {
      WalkedBefore(packet, start, number, answers, authorities, v6, k + 1);
      NegativeKept(packet, start, k, answers, authorities, v6);
    }
  }

  lemma {:induction false} SameSince(value: nat -> nat, from: nat, number: nat)
    requires from <= number && forall k :: from <= k < number ==> value(k) == value(k + 1)
    ensures value(from) == value(number)
    decreases number
  {
    if from < number { SameSince(value, from, number - 1); }
  }

  // Nothing changes the lifetime from a record on where no SOA of the authority section follows.
  lemma NegativeSince(packet: Bytes, start: nat, from: nat, number: nat, answers: nat, authorities: nat, v6: bool)
    requires from <= number && Sections(packet, start, number, answers, authorities, v6).Walk?
    requires NoSoaFrom(packet, start, from, number, answers, authorities)
    ensures NegativeAt(packet, start, from, answers, authorities, v6)
            == NegativeAt(packet, start, number, answers, authorities, v6)
  {
    var value := (n: nat) => NegativeAt(packet, start, n, answers, authorities, v6);
    forall k | from <= k < number ensures value(k) == value(k + 1) {
      NegativeWithin(packet, start, from, number, answers, authorities, v6, k);
    }
    SameSince(value, from, number);
  }

  lemma NegativeSet(packet: Bytes, start: nat, k: nat, answers: nat, authorities: nat, v6: bool, ttl: nat, minimum: nat)
    requires Sections(packet, start, k + 1, answers, authorities, v6).Walk?
    requires InAuthorities(k, answers, authorities)
    ensures SoaStands(packet, start, k, ttl, minimum) ==>
              NegativeAt(packet, start, k + 1, answers, authorities, v6)
              == Min(MAX_NEGATIVE_TTL, Min(ttl, minimum))
  {
    NegativeStep(packet, start, k, answers, authorities, v6);
  }

  lemma NegativeSetLast(packet: Bytes, start: nat, number: nat, answers: nat, authorities: nat, v6: bool, k: nat,
                        ttl: nat, minimum: nat)
    requires k < number && Sections(packet, start, number, answers, authorities, v6).Walk?
    requires InAuthorities(k, answers, authorities)
    ensures SoaStands(packet, start, k, ttl, minimum) ==>
              NegativeAt(packet, start, k + 1, answers, authorities, v6)
              == Min(MAX_NEGATIVE_TTL, Min(ttl, minimum))
  {
    WalkedBefore(packet, start, number, answers, authorities, v6, k + 1);
    NegativeSet(packet, start, k, answers, authorities, v6, ttl, minimum);
  }

  lemma NegativeIs(packet: Bytes, q: Query)
    requires Parse(packet, q).Answer? && Open(packet, q).Walkable? && Parse(packet, q).addresses == {}
    ensures var o := Open(packet, q);
      && Sections(packet, o.start, o.total, o.answers, o.authorities, q.v6).Walk?
      && Parse(packet, q).ttl == NegativeAt(packet, o.start, o.total, o.answers, o.authorities, q.v6)
      && NegativeAt(packet, o.start, 0, o.answers, o.authorities, q.v6) == 0
  {
  }

  /** A negative answer has no lifetime if no SOA record stands in the authority section. */
  lemma NoSoaNoLifetime(packet: Bytes, q: Query)
    requires Parse(packet, q).Answer? && Open(packet, q).Walkable? && Parse(packet, q).addresses == {}
    requires var o := Open(packet, q); NoSoaFrom(packet, o.start, 0, o.total, o.answers, o.authorities)
    ensures Parse(packet, q).ttl == 0
  {
    var o := Open(packet, q);
    NegativeIs(packet, q);
    NegativeSince(packet, o.start, 0, o.total, o.answers, o.authorities, q.v6);
  }

  lemma LastSoaSets(packet: Bytes, start: nat, number: nat, answers: nat, authorities: nat, v6: bool, k: nat, ttl: nat,
                    minimum: nat)
    requires k < number && Sections(packet, start, number, answers, authorities, v6).Walk?
    requires InAuthorities(k, answers, authorities) && NoSoaFrom(packet, start, k + 1, number, answers, authorities)
    ensures SoaStands(packet, start, k, ttl, minimum) ==>
              NegativeAt(packet, start, number, answers, authorities, v6) == Min(MAX_NEGATIVE_TTL, Min(ttl, minimum))
  {
    NegativeSince(packet, start, k + 1, number, answers, authorities, v6);
    NegativeSetLast(packet, start, number, answers, authorities, v6, k, ttl, minimum);
  }

  /** Otherwise the last one gives it the smallest of 30 seconds, its own lifetime and its minimum. */
  lemma LastSoaLifetime(packet: Bytes, q: Query, k: nat, ttl: nat, minimum: nat)
    requires Parse(packet, q).Answer? && Open(packet, q).Walkable? && Parse(packet, q).addresses == {}
    requires var o := Open(packet, q);
      LastSoa(packet, o.start, k, o.total, o.answers, o.authorities, ttl, minimum)
    ensures Parse(packet, q).ttl == Min(MAX_NEGATIVE_TTL, Min(ttl, minimum))
  {
    var o := Open(packet, q);
    NegativeIs(packet, q);
    LastSoaSets(packet, o.start, o.total, o.answers, o.authorities, q.v6, k, ttl, minimum);
  }

  // The names in the data of an alias or of an SOA record read.
  ghost predicate DataReads(packet: Bytes, start: nat, k: nat, answers: nat, authorities: nat) {
    forall f :: FixedAt(packet, start, k, f) && f.class_ == 1 ==>
      && (k < answers && f.kind == 5 ==>
            ReadNameAt(packet, f.data).Name? && ReadNameAt(packet, f.data).end == f.end)
      && (InAuthorities(k, answers, authorities) && f.kind == 6 ==>
            ReadNameAt(packet, f.data).Name? && ReadNameAt(packet, ReadNameAt(packet, f.data).end).Name?)
  }

  ghost predicate AllRead(packet: Bytes, start: nat, number: nat, answers: nat, authorities: nat) {
    && RecordStart(packet, start, number).Some?
    && forall k: nat :: k < number ==> DataReads(packet, start, k, answers, authorities)
  }

  lemma RecordReads(packet: Bytes, start: nat, k: nat, w: Walk, answers: nat, authorities: nat, v6: bool)
    requires w.Walk? && RecordStart(packet, start, k) == Some(w.offset)
    ensures OneRecord(packet, w, SectionOf(k, answers, authorities), v6).Walk? <==>
              RecordStart(packet, start, k + 1).Some? && DataReads(packet, start, k, answers, authorities)
  {
    var owner := ReadNameAt(packet, w.offset);
    if owner.Name? && ReadFixed(packet, owner.end).Some? {
      assert FixedAt(packet, start, k, ReadFixed(packet, owner.end).value);
    }
  }

  lemma {:induction false} StartsBefore(packet: Bytes, start: nat, number: nat, n: nat)
    requires n <= number && RecordStart(packet, start, number).Some?
    ensures RecordStart(packet, start, n).Some?
    decreases number
  {
    if n < number { StartsBefore(packet, start, number - 1, n); }
  }

  lemma {:induction false} FirstBroken(packet: Bytes, start: nat, number: nat, answers: nat, authorities: nat, v6: bool)
    returns (k: nat)
    requires Sections(packet, start, number, answers, authorities, v6).Broken?
    ensures k < number && Sections(packet, start, k, answers, authorities, v6).Walk?
    ensures Sections(packet, start, k + 1, answers, authorities, v6).Broken?
  {
    k := number - 1;
    if Sections(packet, start, k, answers, authorities, v6).Broken? {
      k := FirstBroken(packet, start, k, answers, authorities, v6);
    }
  }

  lemma RecordWalks(packet: Bytes, start: nat, k: nat, answers: nat, authorities: nat, v6: bool)
    requires Sections(packet, start, k, answers, authorities, v6).Walk?
    ensures Sections(packet, start, k + 1, answers, authorities, v6).Walk? <==>
              RecordStart(packet, start, k + 1).Some? && DataReads(packet, start, k, answers, authorities)
  {
    WalkedTo(packet, start, k, answers, authorities, v6);
    RecordReads(packet, start, k, Sections(packet, start, k, answers, authorities, v6), answers, authorities, v6);
  }

  lemma ReadsThere(packet: Bytes, start: nat, number: nat, answers: nat, authorities: nat, v6: bool, k: nat)
    requires k < number && Sections(packet, start, number, answers, authorities, v6).Walk?
    ensures DataReads(packet, start, k, answers, authorities)
  {
    WalkedBefore(packet, start, number, answers, authorities, v6, k + 1);
    WalkedBefore(packet, start, number, answers, authorities, v6, k);
    RecordWalks(packet, start, k, answers, authorities, v6);
  }

  lemma WalkedReads(packet: Bytes, start: nat, number: nat, answers: nat, authorities: nat, v6: bool)
    requires Sections(packet, start, number, answers, authorities, v6).Walk?
    ensures AllRead(packet, start, number, answers, authorities)
  {
    WalkedTo(packet, start, number, answers, authorities, v6);
    forall k: nat | k < number ensures DataReads(packet, start, k, answers, authorities) {
      ReadsThere(packet, start, number, answers, authorities, v6, k);
    }
  }

  lemma BrokenDoesNotRead(packet: Bytes, start: nat, number: nat, answers: nat, authorities: nat, v6: bool)
    requires Sections(packet, start, number, answers, authorities, v6).Broken?
    ensures !AllRead(packet, start, number, answers, authorities)
  {
    var k := FirstUnread(packet, start, number, answers, authorities, v6);
    if RecordStart(packet, start, number).Some? { StartsBefore(packet, start, number, k + 1); }
  }

  lemma FirstUnread(packet: Bytes, start: nat, number: nat, answers: nat, authorities: nat, v6: bool) returns (k: nat)
    requires Sections(packet, start, number, answers, authorities, v6).Broken?
    ensures k < number
    ensures RecordStart(packet, start, k + 1).None? || !DataReads(packet, start, k, answers, authorities)
  {
    k := FirstBroken(packet, start, number, answers, authorities, v6);
    RecordWalks(packet, start, k, answers, authorities, v6);
  }

  /** The walk fails on exactly the malformed packets: a record that does not fit, or names in its data that do not
      read. */
  lemma WalkIsExact(packet: Bytes, start: nat, number: nat, answers: nat, authorities: nat, v6: bool)
    ensures Sections(packet, start, number, answers, authorities, v6).Walk? <==>
              AllRead(packet, start, number, answers, authorities)
  {
    if Sections(packet, start, number, answers, authorities, v6).Walk? {
      WalkedReads(packet, start, number, answers, authorities, v6);
    } else {
      BrokenDoesNotRead(packet, start, number, answers, authorities, v6);
    }
  }

  /** A reply whose header and question are accepted is answered exactly if all its records read, and is of no use
      otherwise. */
  lemma AnsweredExactly(packet: Bytes, q: Query)
    requires Open(packet, q).Walkable?
    ensures var o := Open(packet, q); var r := Parse(packet, q);
      && (r.Answer? <==> AllRead(packet, o.start, o.total, o.answers, o.authorities))
      && (!r.Answer? ==> r == Invalid) && (r.Answer? ==> r.succeeded)
  {
    var o := Open(packet, q);
    WalkIsExact(packet, o.start, o.total, o.answers, o.authorities, q.v6);
  }

  /** No reply with another transaction number, without the response flag, with another operation or with more or fewer
      questions than one is ever used. */
  lemma ForeignReplyIsInvalid(packet: Bytes, q: Query)
    requires |packet| < 12 || Word(packet, 0) != q.transaction || Word(packet, 2) / 32768 % 2 == 0
             || Word(packet, 2) / 2048 % 16 != 0 || Word(packet, 4) != 1
    ensures Parse(packet, q) == Invalid
  {
  }

  // ---------------------------------------------------------------------------------------------
  // The fixed part of a record, encoded and read.

  function TwoBytes(n: nat): Bytes
    requires n < 0x1_0000
  {
    [n / 256, n % 256]
  }

  function EncodeFixed(kind: nat, class_: nat, ttl: nat, data: Bytes): Bytes
    requires kind < 0x1_0000 && class_ < 0x1_0000 && ttl < 0x1_0000_0000 && |data| < 0x1_0000
  {
    TwoBytes(kind) + (TwoBytes(class_) + (TwoBytes(ttl / 0x1_0000)
                                          + (TwoBytes(ttl % 0x1_0000) + (TwoBytes(|data|) + data))))
  }

  lemma WordRoundTrip(packet: Bytes, at: nat, n: nat)
    requires n < 0x1_0000 && Holds(packet, at, TwoBytes(n))
    ensures at + 2 <= |packet| && Word(packet, at) == n
  {
    HoldsByte(packet, at, TwoBytes(n), 0);
    HoldsByte(packet, at, TwoBytes(n), 1);
  }

  lemma WordFirst(packet: Bytes, at: nat, n: nat, rest: Bytes)
    requires n < 0x1_0000 && Holds(packet, at, TwoBytes(n) + rest)
    ensures at + 2 <= |packet| && Word(packet, at) == n && Holds(packet, at + 2, rest)
  {
    HoldsParts(packet, at, TwoBytes(n), rest);
    WordRoundTrip(packet, at, n);
  }

  /** The type, the class, the lifetime, the length and the data of a record are read as they were encoded. */
  lemma FixedRoundTrip(packet: Bytes, at: nat, kind: nat, class_: nat, ttl: nat, data: Bytes)
    requires kind < 0x1_0000 && class_ < 0x1_0000 && ttl < 0x1_0000_0000 && |data| < 0x1_0000
    requires Holds(packet, at, EncodeFixed(kind, class_, ttl, data))
    ensures ReadFixed(packet, at) == Some(Fixed(kind, class_, ttl, at + 10, at + 10 + |data|))
    ensures at + 10 + |data| <= |packet| && packet[at + 10..at + 10 + |data|] == data
  {
    var tail := TwoBytes(|data|) + data;
    var low := TwoBytes(ttl % 0x1_0000) + tail;
    var high := TwoBytes(ttl / 0x1_0000) + low;
    WordFirst(packet, at, kind, TwoBytes(class_) + high);
    WordFirst(packet, at + 2, class_, high);
    WordFirst(packet, at + 4, ttl / 0x1_0000, low);
    WordFirst(packet, at + 6, ttl % 0x1_0000, tail);
    WordFirst(packet, at + 8, |data|, data);
    assert LongWord(packet, at + 4) == ttl;
  }

  // ---------------------------------------------------------------------------------------------
  // The filter of addresses.

  /** Of the local IPv4 blocks all of 0.0.0.0/8, 10.0.0.0/8, 127.0.0.0/8 and 192.168.0.0/16 is refused, and of
      172.16.0.0/12 only the first sixteenth. */
  lemma LocalBlocks(a: Bytes)
    requires |a| == 4
    ensures Usable(a, false) <==>
              Word(a, 0) / 256 !in {0, 10, 127} && Word(a, 0) != 172 * 256 + 16 && Word(a, 0) != 192 * 256 + 168
  {
  }

  // Groups from i on, up to but without j, are all zero.
  ghost predicate ZeroGroups(a: Bytes, i: nat, j: nat)
    requires |a| == 16 && j <= 8
  {
    forall k :: i <= k < j ==> a[2 * k] == 0 && a[2 * k + 1] == 0
  }

  lemma {:induction false} ZeroRunMeans(a: Bytes, i: nat)
    requires |a| == 16 && i <= 8
    ensures i + ZeroRun(a, i) <= 8 && ZeroGroups(a, i, i + ZeroRun(a, i))
    ensures forall j :: i <= j <= 8 && ZeroGroups(a, i, j) ==> j - i <= ZeroRun(a, i)
    decreases 8 - i
  {
    if i < 8 {
      ZeroRunMeans(a, i + 1);
      forall j | i < j <= 8 && ZeroGroups(a, i, j) ensures j - i <= ZeroRun(a, i) {
        assert ZeroGroups(a, i + 1, j);
        assert a[2 * i] == 0 && a[2 * i + 1] == 0;
      }
    }
  }

  /** The canonical text of an IPv6 address begins with "::" exactly if its first two groups are zero and no run of zero
      groups is longer than the one they begin. */
  lemma ColonsMean(a: Bytes)
    requires |a| == 16
    ensures StartsWithColons(a) <==>
              && ZeroGroups(a, 0, 2)
              && forall i: nat, j: nat :: i <= j <= 8 && ZeroGroups(a, i, j) ==> ZeroGroups(a, 0, j - i)
  {
    forall i: nat | i <= 8
      ensures i + ZeroRun(a, i) <= 8 && ZeroGroups(a, i, i + ZeroRun(a, i))
      ensures forall j :: i <= j <= 8 && ZeroGroups(a, i, j) ==> j - i <= ZeroRun(a, i)
    {
      ZeroRunMeans(a, i);
    }
    if ZeroGroups(a, 0, 2) && forall i: nat, j: nat :: i <= j <= 8 && ZeroGroups(a, i, j) ==> ZeroGroups(a, 0, j - i) {
      forall i: nat | i < 8 ensures ZeroRun(a, i) <= ZeroRun(a, 0) {
        var j := i + ZeroRun(a, i);
        assert ZeroGroups(a, i, j);
        assert ZeroGroups(a, 0, j - i);
      }
    }
    if StartsWithColons(a) {
      forall i: nat, j: nat | i <= j <= 8 && ZeroGroups(a, i, j) ensures ZeroGroups(a, 0, j - i) {
        if i < 8 { assert j - i <= ZeroRun(a, i) <= ZeroRun(a, 0); }
      }
    }
  }

  // Known IPv6 addresses: a documentation one, a link-local and a unique local one.
  lemma KnownAddresses()
    ensures Usable([0x20, 1, 0x0d, 0xb8, 0, 0, 0, 0, 0, 0, 0, 0, 0, 0, 0, 1], true)
    ensures !Usable([0xfe, 0x80, 0, 0, 0, 0, 0, 0, 0, 0, 0, 0, 0, 0, 0, 1], true)
    ensures !Usable([0xfd, 0, 0, 0, 0, 0, 0, 0, 0, 0, 0, 0, 0, 0, 0, 1], true)
  {
  }

  // What is asked for: IPv4 addresses are type 1 with four bytes, IPv6 ones type 28 with sixteen.
  lemma KnownTypes(packet: Bytes, end: nat)
    ensures AsksFor(packet, end, false) ==> Holds(packet, end, [0, 1, 0, 1])
    ensures AsksFor(packet, end, true) ==> Holds(packet, end, [0, 28, 0, 1])
    ensures AddressSize(false) == 4 && AddressSize(true) == 16
  {
  }

  // A response to this transaction that repeats the query's own question.
  ghost predicate OwnReply(packet: Bytes, q: Query) {
    && |packet| >= 12 && Word(packet, 0) == q.transaction && Word(packet, 2) / 32768 % 2 == 1
    && Word(packet, 2) / 2048 % 16 == 0 && Word(packet, 4) == 1
    && (WireLabels(Split(StripDots(q.domain))) ==> HoldsQuestion(packet, 12, Split(StripDots(q.domain)), q.v6))
  }

  /** The question that the query sends is the question that the parser expects: a reply that repeats it with the same
      transaction number and a response flag is retried if it is truncated, fails if its code is neither 0 nor 3, and
      is read from behind the question with the counts of the header otherwise. */
  lemma OwnQuestionIsAccepted(packet: Bytes, q: Query)
    requires AcceptedDomain(q.domain) && OwnReply(packet, q)
    ensures var flags := Word(packet, 2);
      if flags / 512 % 2 == 1 then Parse(packet, q) == RetryOverTcp
      else if flags % 16 !in {0, 3} then Parse(packet, q) == Answer({}, 0, false)
      else OpensFor(packet, q, Open(packet, q))
  {
    QuestionIsRead(packet, 12, q.domain, q.v6);
    DomainIsLower(q.domain);
  }

  // The sections begin behind the question; their sizes are the header's.
  predicate OpensFor(packet: Bytes, q: Query, o: Opening) {
    && |packet| >= 12 && o.Walkable? && o.name == StripDots(q.domain)
    && ReadNameAt(packet, 12).Name? && o.start == ReadNameAt(packet, 12).end + 4
    && o.answers == Word(packet, 6) && o.authorities == Word(packet, 8)
    && o.total == o.answers + o.authorities + Word(packet, 10) && (o.nameError <==> Word(packet, 2) % 16 == 3)
  }

  /** A reply to another question is never used. */
  lemma ForeignQuestionIsInvalid(packet: Bytes, q: Query)
    requires |packet| >= 12
    requires ReadNameAt(packet, 12).Malformed? || ReadNameAt(packet, 12).text != Lower(StripDots(q.domain))
             || !AsksFor(packet, ReadNameAt(packet, 12).end, q.v6)
    ensures Parse(packet, q) == Invalid
  {
  }

  // The type and the class that the query asks for.
  predicate AsksFor(packet: Bytes, end: nat, v6: bool) {
    end + 4 <= |packet| && Word(packet, end) == QueryType(v6) && Word(packet, end + 2) == 1
  }

  lemma QuestionIsRead(packet: Bytes, offset: nat, domain: string, v6: bool)
    requires AcceptedDomain(domain)
    requires WireLabels(Split(StripDots(domain))) ==> HoldsQuestion(packet, offset, Split(StripDots(domain)), v6)
    ensures var question := ReadNameAt(packet, offset);
      question.Name? && question.text == StripDots(domain) && AsksFor(packet, question.end, v6)
  {
    var labels := Split(StripDots(domain));
    if WireLabels(labels) { NameThenFields(packet, offset, labels, v6, offset + |EncodeName(labels)|); }
    DomainRoundTrip(packet, offset, domain);
    NameThenFields(packet, offset, labels, v6, ReadNameAt(packet, offset).end);
  }

  // A question as the query encodes it: the name, the type and the class.
  ghost predicate HoldsQuestion(packet: Bytes, offset: nat, labels: seq<string>, v6: bool)
    requires WireLabels(labels)
  {
    Holds(packet, offset, EncodeName(labels) + [0, QueryType(v6), 0, 1])
  }

  lemma NameThenFields(packet: Bytes, offset: nat, labels: seq<string>, v6: bool, end: nat)
    requires WireLabels(labels) && HoldsQuestion(packet, offset, labels, v6) && end == offset + |EncodeName(labels)|
    ensures Holds(packet, offset, EncodeName(labels))
    ensures AsksFor(packet, end, v6)
  {
    HoldsParts(packet, offset, EncodeName(labels), [0, QueryType(v6), 0, 1]);
    TypeAndClass(packet, end, v6);
  }

  lemma TypeAndClass(packet: Bytes, end: nat, v6: bool)
    requires Holds(packet, end, [0, QueryType(v6), 0, 1])
    ensures end + 4 <= |packet| && Word(packet, end) == QueryType(v6) && Word(packet, end + 2) == 1
  {
    var tail: Bytes := [0, QueryType(v6), 0, 1];
    HoldsByte(packet, end, tail, 0);
    HoldsByte(packet, end, tail, 1);
    HoldsByte(packet, end, tail, 2);
    HoldsByte(packet, end, tail, 3);
  }
}
