/**
 Names on the wire (name encoding in query_dns and read_name in app/route_dns_batch.py;
 RFC 1035, sections 2.3.4, 3.1 and 4.1.4).
 */
module DnsNames {
  import opened Wrappers

  type Byte = b: nat | b < 256

  type Bytes = seq<Byte>

  datatype NameResult = Name(text: string, end: nat) | Malformed

  const STEP_LIMIT: nat := 128

  function Join(labels: seq<string>): string {
    if labels == [] then ""
    else if |labels| == 1 then labels[0]
    else Join(labels[..|labels| - 1]) + "." + labels[|labels| - 1]
  }

  function LowerChar(c: char): char {
    if 'A' <= c <= 'Z' then c + ('a' - 'A') else c
  }

  function Lower(s: string): (r: string)
    ensures |r| == |s|
  {
    seq(|s|, i requires 0 <= i < |s| => LowerChar(s[i]))
  }

  predicate Ascii(bytes: Bytes) {
    forall i :: 0 <= i < |bytes| ==> bytes[i] < 128
  }

  function Decode(bytes: Bytes): (s: string)
    ensures |s| == |bytes|
  {
    seq(|bytes|, i requires 0 <= i < |bytes| => bytes[i] as char)
  }

  // The reader's variables: where it reads, the labels so far, the end once a pointer fixed it, the offsets
  // visited and the steps that are left.
  datatype Reader = Reader(offset: nat, labels: seq<string>, end: Option<nat>, seen: set<nat>, left: nat)

  datatype Turned = Done(result: NameResult) | Again(reader: Reader)

  // One turn of the reader's loop.
  function Turn(packet: Bytes, r: Reader): Turned {
    if r.left == 0 || r.offset in r.seen || r.offset >= |packet| then Done(Malformed)
    else
      var size: nat := packet[r.offset];
      var next := r.offset + 1;
      var on := r.(seen := r.seen + {r.offset}, left := r.left - 1);
      if size == 0 then Done(Name(Lower(Join(r.labels)), if r.end.Some? then r.end.value else next))
      else if size >= 192 then
        if next >= |packet| then Done(Malformed)
        else Again(on.(offset := (size - 192) * 256 + packet[next],
                       end := if r.end.Some? then r.end else Some(next + 1)))
      else if size > 63 || next + size > |packet| || !Ascii(packet[next..next + size]) then Done(Malformed)
      else Again(on.(offset := next + size, labels := r.labels + [Decode(packet[next..next + size])]))
  }

  function ReadFrom(packet: Bytes, r: Reader): NameResult
    decreases r.left
  {
    match Turn(packet, r)
    case Done(result) => result
    case Again(next) => ReadFrom(packet, next)
  }

  function AtStart(offset: nat): Reader {
    Reader(offset, [], None, {}, STEP_LIMIT)
  }

  function ReadNameAt(packet: Bytes, offset: nat): NameResult {
    ReadFrom(packet, AtStart(offset))
  }

  lemma {:induction false} EndIsBehind(packet: Bytes, r: Reader)
    requires r.end.Some? ==> r.end.value <= |packet|
    ensures var result := ReadFrom(packet, r);
      result.Name? ==> if r.end.Some? then result.end == r.end.value else r.offset < result.end <= |packet|
    decreases r.left
  {
    if Turn(packet, r).Again? { EndIsBehind(packet, Turn(packet, r).reader); }
  }

  /** A name that is read ends behind its start and inside the packet. */
  lemma NameEndsInPacket(packet: Bytes, offset: nat)
    ensures ReadNameAt(packet, offset).Name? ==> offset < ReadNameAt(packet, offset).end <= |packet|
  {
    EndIsBehind(packet, AtStart(offset));
  }

  lemma TurnReads(packet: Bytes, r: Reader)
    ensures Turn(packet, r).Done? ==> ReadFrom(packet, r) == Turn(packet, r).result
    ensures Turn(packet, r).Again? ==> ReadFrom(packet, r) == ReadFrom(packet, Turn(packet, r).reader)
  {
  }

  /** The reader's loop: it stops within the step limit on any bytes and never reads outside the packet. */
  method ReadName(packet: Bytes, start: nat) returns (r: NameResult)
    ensures r == ReadNameAt(packet, start)
    ensures r.Name? ==> start < r.end <= |packet|
  {
    NameEndsInPacket(packet, start);
    var offset: nat := start;
    var labels: seq<string>, end: Option<nat>, seen: set<nat> := [], None, {};
    ghost var reader := AtStart(start);
    for step := 0 to STEP_LIMIT
      invariant reader == Reader(offset, labels, end, seen, STEP_LIMIT - step)
      invariant ReadFrom(packet, reader) == ReadNameAt(packet, start)
    {
      TurnReads(packet, reader);
      ghost var turned := Turn(packet, reader);
      if offset in seen || offset >= |packet| { return Malformed; }
      seen := seen + {offset};
      var size: nat := packet[offset];
      offset := offset + 1;
      if size == 0 { return Name(Lower(Join(labels)), if end.Some? then end.value else offset); }
      if size >= 192 {
        if offset >= |packet| { return Malformed; }
        if end.None? { end := Some(offset + 1); }
        offset := (size - 192) * 256 + packet[offset];
      } else {
        if size > 63 || offset + size > |packet| { return Malformed; }
        if !Ascii(packet[offset..offset + size]) { return Malformed; }
        labels := labels + [Decode(packet[offset..offset + size])];
        offset := offset + size;
      }
      assert turned == Again(Reader(offset, labels, end, seen, STEP_LIMIT - step - 1));
      reader := turned.reader;
    }
    r := Malformed;
  }

  // ---------------------------------------------------------------------------------------------
  // The encoder.

  predicate WireLabel(text: string) {
    1 <= |text| <= 63 && forall i :: 0 <= i < |text| ==> text[i] as int < 128
  }

  function Encode(text: string): (bytes: Bytes)
    requires WireLabel(text)
    ensures |bytes| == |text| + 1 && Ascii(bytes[1..]) && Decode(bytes[1..]) == text && bytes[0] == |text|
  {
    var codes: Bytes := seq(|text|, i requires 0 <= i < |text| => text[i] as int);
    var bytes := [|text|] + codes;
    assert bytes[1..] == codes;
    bytes
  }

  predicate WireLabels(labels: seq<string>) {
    forall i :: 0 <= i < |labels| ==> WireLabel(labels[i])
  }

  function EncodeAll(labels: seq<string>): Bytes
    requires WireLabels(labels)
  {
    if labels == [] then [] else Encode(labels[0]) + EncodeAll(labels[1..])
  }

  function EncodeName(labels: seq<string>): Bytes
    requires WireLabels(labels)
  {
    EncodeAll(labels) + [0]
  }

  ghost predicate Holds(packet: Bytes, offset: nat, bytes: Bytes) {
    offset + |bytes| <= |packet| && packet[offset..offset + |bytes|] == bytes
  }

  lemma HoldsParts(packet: Bytes, offset: nat, first: Bytes, rest: Bytes)
    requires Holds(packet, offset, first + rest)
    ensures Holds(packet, offset, first) && Holds(packet, offset + |first|, rest)
  {
    var whole := packet[offset..offset + |first + rest|];
    assert packet[offset..offset + |first|] == whole[..|first|] == first;
    assert packet[offset + |first|..offset + |first| + |rest|] == whole[|first|..] == rest;
  }

  lemma HoldsByte(packet: Bytes, offset: nat, bytes: Bytes, i: nat)
    requires Holds(packet, offset, bytes) && i < |bytes|
    ensures packet[offset + i] == bytes[i]
  {
  }

  lemma LabelTurn(packet: Bytes, r: Reader, text: string)
    requires r.left > 0 && WireLabel(text) && Holds(packet, r.offset, Encode(text)) && r.offset !in r.seen
    ensures Turn(packet, r) ==
              Again(Reader(r.offset + |text| + 1, r.labels + [text], r.end, r.seen + {r.offset}, r.left - 1))
  {
  }

  // No visited offset lies in the stretch still to be read.
  ghost predicate Unseen(r: Reader, length: nat) {
    forall o :: o in r.seen ==> o < r.offset || o >= r.offset + length
  }

  ghost predicate SeenBetween(r: Reader, after: Reader) {
    forall o :: o in after.seen ==> o in r.seen || r.offset <= o < after.offset
  }

  lemma FirstLabel(packet: Bytes, r: Reader, labels: seq<string>) returns (next: Reader)
    requires WireLabels(labels) && labels != [] && Holds(packet, r.offset, EncodeAll(labels)) && r.left > 0
    requires Unseen(r, |EncodeAll(labels)|)
    ensures ReadFrom(packet, r) == ReadFrom(packet, next)
    ensures Holds(packet, next.offset, EncodeAll(labels[1..]))
    ensures next.offset + |EncodeAll(labels[1..])| == r.offset + |EncodeAll(labels)|
    ensures next.labels == r.labels + [labels[0]] && next.end == r.end && next.left == r.left - 1
    ensures r.offset < next.offset
    ensures Unseen(next, |EncodeAll(labels[1..])|) && SeenBetween(r, next)
  {
    HoldsParts(packet, r.offset, Encode(labels[0]), EncodeAll(labels[1..]));
    LabelTurn(packet, r, labels[0]);
    next := Turn(packet, r).reader;
  }

  lemma Regroup(before: seq<string>, labels: seq<string>)
    requires labels != []
    ensures before + [labels[0]] + labels[1..] == before + labels
  {
  }

  lemma SeenInBoth(r: Reader, next: Reader, after: Reader)
    requires SeenBetween(r, next) && SeenBetween(next, after) && r.offset <= next.offset <= after.offset
    ensures SeenBetween(r, after)
  {
  }

  // Reading encoded labels costs one step each and lands behind them with the labels collected.
  lemma {:induction false} ReadsLabels(packet: Bytes, r: Reader, labels: seq<string>) returns (after: Reader)
    requires WireLabels(labels) && Holds(packet, r.offset, EncodeAll(labels)) && |labels| <= r.left
    requires Unseen(r, |EncodeAll(labels)|)
    ensures ReadFrom(packet, r) == ReadFrom(packet, after)
    ensures after.offset == r.offset + |EncodeAll(labels)| && after.labels == r.labels + labels
    ensures after.end == r.end && after.left == r.left - |labels| && SeenBetween(r, after)
    decreases |labels|
  {
    if labels == [] {
      after := r;
      assert r.labels + [] == r.labels;
    } else {
      var next := FirstLabel(packet, r, labels);
      after := ReadsLabels(packet, next, labels[1..]);
      Regroup(r.labels, labels);
      SeenInBoth(r, next, after);
    }
  }

  lemma EndTurn(packet: Bytes, r: Reader)
    requires r.left > 0 && Holds(packet, r.offset, [0]) && r.offset !in r.seen
    ensures Turn(packet, r) == Done(Name(Lower(Join(r.labels)), if r.end.Some? then r.end.value else r.offset + 1))
  {
  }

  lemma NameRead(packet: Bytes, r: Reader, labels: seq<string>)
    requires WireLabels(labels) && |labels| < r.left && Holds(packet, r.offset, EncodeName(labels))
    requires Unseen(r, |EncodeName(labels)|)
    ensures ReadFrom(packet, r) ==
            Name(Lower(Join(r.labels + labels)), if r.end.Some? then r.end.value else r.offset + |EncodeName(labels)|)
  {
    HoldsParts(packet, r.offset, EncodeAll(labels), [0]);
    var after := ReadsLabels(packet, r, labels);
    EndTurn(packet, after);
  }

  /** Encoding then reading returns the lower-cased name and the offset right behind it, wherever it stands. */
  lemma NameRoundTrip(packet: Bytes, offset: nat, labels: seq<string>)
    requires WireLabels(labels) && |labels| < STEP_LIMIT && Holds(packet, offset, EncodeName(labels))
    ensures ReadNameAt(packet, offset) == Name(Lower(Join(labels)), offset + |EncodeName(labels)|)
  {
    NameRead(packet, AtStart(offset), labels);
    assert [] + labels == labels;
  }

  // A pointer to an offset below 2^14 (RFC 1035, section 4.1.4).
  function Pointer(target: nat): Bytes
    requires target < 16384
  {
    [192 + target / 256, target % 256]
  }

  lemma PointerTurn(packet: Bytes, r: Reader, target: nat)
    requires r.left > 0 && target < 16384 && Holds(packet, r.offset, Pointer(target)) && r.offset !in r.seen
    requires r.end.None?
    ensures Turn(packet, r) == Again(Reader(target, r.labels, Some(r.offset + 2), r.seen + {r.offset}, r.left - 1))
  {
  }

  /** A compressed name: labels and a pointer to a name spelled out elsewhere read as the labels of both, and
      end right behind the pointer. */
  lemma CompressedNameRoundTrip(packet: Bytes, offset: nat, labels: seq<string>, target: nat, rest: seq<string>)
    requires target < 16384 && WireLabels(labels) && WireLabels(rest) && |labels| + |rest| + 1 < STEP_LIMIT
    requires Holds(packet, offset, EncodeAll(labels) + Pointer(target)) && Holds(packet, target, EncodeName(rest))
    requires target + |EncodeName(rest)| <= offset || offset + |EncodeAll(labels)| + 2 <= target
    ensures ReadNameAt(packet, offset) == Name(Lower(Join(labels + rest)), offset + |EncodeAll(labels)| + 2)
  {
    HoldsParts(packet, offset, EncodeAll(labels), Pointer(target));
    var at := ReadsLabels(packet, AtStart(offset), labels);
    assert [] + labels == labels;
    PointerTurn(packet, at, target);
    NameRead(packet, Turn(packet, at).reader, rest);
  }

  // ---------------------------------------------------------------------------------------------
  // Domain text.

  predicate DomainChar(c: char) {
    'a' <= c <= 'z' || '0' <= c <= '9' || c == '_' || c == '.' || c == '-'
  }

  function StripDots(s: string): string {
    if s != "" && s[|s| - 1] == '.' then StripDots(s[..|s| - 1]) else s
  }

  // str.split('.'), from the right.
  function Split(s: string): (labels: seq<string>)
    ensures labels != []
  {
    if s == "" then [""]
    else
      var labels := Split(s[..|s| - 1]);
      var c := s[|s| - 1];
      if c == '.' then labels + [""] else labels[..|labels| - 1] + [labels[|labels| - 1] + [c]]
  }

  predicate AcceptedDomain(domain: string) {
    && 1 <= |domain| <= 253 && domain[0] != '-'
    && (forall i :: 0 <= i < |domain| ==> DomainChar(domain[i]))
    && forall i :: 0 <= i < |Split(StripDots(domain))| ==> 1 <= |Split(StripDots(domain))[i]| <= 63
  }

  function TotalLength(labels: seq<string>): nat {
    if labels == [] then 0 else TotalLength(labels[..|labels| - 1]) + |labels[|labels| - 1]|
  }

  lemma JoinOneMore(front: seq<string>, last: string)
    ensures Join(front + [last]) == if front == [] then last else Join(front) + "." + last
  {
    assert (front + [last])[..|front|] == front;
  }

  lemma JoinEmpty(labels: seq<string>)
    requires labels != []
    ensures Join(labels + [""]) == Join(labels) + "."
  {
    JoinOneMore(labels, "");
  }

  lemma JoinLonger(front: seq<string>, last: string, c: char)
    ensures Join(front + [last + [c]]) == Join(front + [last]) + [c]
  {
    JoinOneMore(front, last);
    JoinOneMore(front, last + [c]);
    if front != [] { Associate(Join(front) + ".", last, [c]); }
  }

  lemma Associate(a: string, b: string, c: string)
    ensures a + (b + c) == a + b + c
  {
  }

  lemma {:induction false} SplitLoses(s: string)
    ensures Join(Split(s)) == s
    ensures TotalLength(Split(s)) + |Split(s)| == |s| + 1
  {
    if s == "" {
      assert Split(s) == [""] && Split(s)[..0] == [];
    } else {
      var front, c := s[..|s| - 1], s[|s| - 1];
      SplitLoses(front);
      var labels, all := Split(front), Split(s);
      assert s == front + [c];
      JoinEmpty(labels);
      JoinLonger(labels[..|labels| - 1], labels[|labels| - 1], c);
      assert labels == labels[..|labels| - 1] + [labels[|labels| - 1]];
      assert all[..|all| - 1] == if c == '.' then labels else labels[..|labels| - 1];
    }
  }

  lemma {:induction false} SplitChars(s: string, i: nat, j: nat)
    requires i < |Split(s)| && j < |Split(s)[i]|
    ensures Split(s)[i][j] in s
  {
    if s != "" {
      var front, c := s[..|s| - 1], s[|s| - 1];
      if i < |Split(front)| && j < |Split(front)[i]| {
        SplitChars(front, i, j);
      } else {
        assert Split(s)[i][j] == c;
      }
    }
  }

  lemma {:induction false} StrippedChars(s: string)
    ensures |StripDots(s)| <= |s| && forall i :: 0 <= i < |StripDots(s)| ==> StripDots(s)[i] in s
  {
    if s != "" && s[|s| - 1] == '.' { StrippedChars(s[..|s| - 1]); }
  }

  lemma {:induction false} ManyLabelsAreLong(labels: seq<string>)
    requires forall i :: 0 <= i < |labels| ==> |labels[i]| >= 1
    ensures TotalLength(labels) >= |labels|
  {
    if labels != [] { ManyLabelsAreLong(labels[..|labels| - 1]); }
  }

  lemma DomainLabels(domain: string)
    requires AcceptedDomain(domain)
    ensures WireLabels(Split(StripDots(domain)))
  {
    var text := StripDots(domain);
    var labels := Split(text);
    SplitLoses(text);
    StrippedChars(domain);
    forall i | 0 <= i < |labels| ensures WireLabel(labels[i]) {
      forall j | 0 <= j < |labels[i]| ensures labels[i][j] as int < 128 {
        SplitChars(text, i, j);
        var k :| 0 <= k < |text| && text[k] == labels[i][j];
        assert text[k] in domain;
        assert DomainChar(labels[i][j]);
      }
    }
  }

  lemma DomainIsLower(domain: string)
    requires AcceptedDomain(domain)
    ensures Lower(StripDots(domain)) == StripDots(domain)
  {
    var text := StripDots(domain);
    StrippedChars(domain);
    forall i | 0 <= i < |text| ensures LowerChar(text[i]) == text[i] {
      assert text[i] in domain;
      assert DomainChar(text[i]);
    }
    assert Lower(text) == text;
  }

  /** Every domain that the query accepts survives the wire: at most 127 labels, so the reader's step limit is
      never the reason to fail, and it returns the domain itself without trailing dots. */
  lemma DomainRoundTrip(packet: Bytes, offset: nat, domain: string)
    requires AcceptedDomain(domain)
    requires WireLabels(Split(StripDots(domain))) ==> Holds(packet, offset, EncodeName(Split(StripDots(domain))))
    ensures WireLabels(Split(StripDots(domain))) && |Split(StripDots(domain))| <= 127
    ensures ReadNameAt(packet, offset) == Name(StripDots(domain), offset + |EncodeName(Split(StripDots(domain)))|)
  {
    var text := StripDots(domain);
    var labels := Split(text);
    SplitLoses(text);
    StrippedChars(domain);
    ManyLabelsAreLong(labels);
    DomainLabels(domain);
    NameRoundTrip(packet, offset, labels);
    DomainIsLower(domain);
  }

  // ---------------------------------------------------------------------------------------------
  // What is read and what is refused.

  /** A label that is too long or leaves the packet or ASCII, a reserved length, and a pointer without its second byte
      end the reading, wherever they come. */
  lemma BadLabelIsRefused(packet: Bytes, r: Reader)
    requires r.offset < |packet|
    requires var size: nat := packet[r.offset]; var next := r.offset + 1;
      || 64 <= size < 192 || (size >= 192 && next == |packet|)
      || (0 < size < 64 && (next + size > |packet| || exists i :: next <= i < next + size && packet[i] >= 128))
    ensures ReadFrom(packet, r) == Malformed
  {
    var size: nat := packet[r.offset];
    var next := r.offset + 1;
    if 0 < size < 64 && next + size <= |packet| {
      var i :| next <= i < next + size && packet[i] >= 128;
      assert packet[next..next + size][i - next] == packet[i];
    }
  }

  ghost predicate Plain(s: string) {
    forall i :: 0 <= i < |s| ==> s[i] as int < 128
  }

  lemma {:induction false} JoinIsPlain(labels: seq<string>)
    requires forall i :: 0 <= i < |labels| ==> Plain(labels[i])
    ensures Plain(Join(labels))
  {
    if |labels| > 1 { JoinIsPlain(labels[..|labels| - 1]); }
  }

  lemma {:induction false} ReadIsLower(packet: Bytes, r: Reader)
    requires forall i :: 0 <= i < |r.labels| ==> Plain(r.labels[i])
    ensures var result := ReadFrom(packet, r);
      result.Name? ==>
        forall i :: 0 <= i < |result.text| ==> result.text[i] as int < 128 && !('A' <= result.text[i] <= 'Z')
    decreases r.left
  {
    JoinIsPlain(r.labels);
    if Turn(packet, r).Again? { ReadIsLower(packet, Turn(packet, r).reader); }
  }

  /** A name that is read is ASCII without capitals. */
  lemma NameIsLower(packet: Bytes, offset: nat)
    ensures var result := ReadNameAt(packet, offset);
      result.Name? ==>
        forall i :: 0 <= i < |result.text| ==> result.text[i] as int < 128 && !('A' <= result.text[i] <= 'Z')
  {
    ReadIsLower(packet, AtStart(offset));
  }

  lemma {:induction false} StripDotsMeans(s: string)
    ensures var t := StripDots(s);
      t <= s && (t != "" ==> t[|t| - 1] != '.') && forall i :: |t| <= i < |s| ==> s[i] == '.'
  {
    if s != "" && s[|s| - 1] == '.' { StripDotsMeans(s[..|s| - 1]); }
  }
}
