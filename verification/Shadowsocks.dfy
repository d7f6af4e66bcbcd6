/**
 The Shadowsocks address rebuilt from stored fields (app/proxy_key_store.py:40-56) and taken apart again
 (app/proxy_protocols.py:281-312), with the URL-safe base64 of RFC 4648, sections 4 and 5, whose padding (section 3.2)
 the printer strips and the parser restores.  Credentials are their UTF-8 bytes.
 */
module Shadowsocks {
  import opened Wrappers

  type Byte = b: nat | b < 256

  // ---------------------------------------------------------------------------------------------
  // Base64.

  function Letter(v: nat): char
    requires v < 64
  {
    if v < 26 then 'A' + v as char
    else if v < 52 then 'a' + (v - 26) as char
    else if v < 62 then '0' + (v - 52) as char
    else if v == 62 then '-' else '_'
  }

  function Value(c: char): Option<nat> {
    if 'A' <= c <= 'Z' then Some(c as nat - 'A' as nat)
    else if 'a' <= c <= 'z' then Some(c as nat - 'a' as nat + 26)
    else if '0' <= c <= '9' then Some(c as nat - '0' as nat + 52)
    else if c == '-' then Some(62) else if c == '_' then Some(63) else None
  }

  lemma LetterValue(v: nat)
    requires v < 64
    ensures Value(Letter(v)) == Some(v)
  {
  }

  function Quad(a: Byte, b: Byte, c: Byte): string {
    [Letter(a / 4), Letter(a % 4 * 16 + b / 16), Letter(b % 16 * 4 + c / 64), Letter(c % 64)]
  }

  function Equals(n: nat): string {
    seq(n, _ => '=')
  }

  // One to three bytes as four characters, the missing ones padding.
  function Group(b: seq<Byte>): string
    requires 1 <= |b| <= 3
  {
    Quad(b[0], if |b| > 1 then b[1] else 0, if |b| > 2 then b[2] else 0)[..|b| + 1] + Equals(3 - |b|)
  }

  function Chunk(bytes: seq<Byte>): nat {
    if |bytes| < 3 then |bytes| else 3
  }

  function Encode(bytes: seq<Byte>): string {
    if bytes == [] then "" else Group(bytes[..Chunk(bytes)]) + Encode(bytes[Chunk(bytes)..])
  }

  // Four values of the alphabet as three bytes.
  function Triple(v: seq<nat>): (bytes: seq<Byte>)
    requires |v| == 4 && forall i :: 0 <= i < 4 ==> v[i] < 64
    ensures |bytes| == 3
  {
    [v[0] * 4 + v[1] / 16, v[1] % 16 * 16 + v[2] / 4, v[2] % 4 * 64 + v[3]]
  }

  function Values(text: string): (values: Option<seq<nat>>)
    ensures values.Some? ==> |values.value| == |text| && forall i :: 0 <= i < |text| ==> values.value[i] < 64
  {
    if text == "" then Some([])
    else
      var v, rest := Value(text[0]), Values(text[1..]);
      if v.None? || rest.None? then None else Some([v.value] + rest.value)
  }

  // Well-formed padded text; anything else is None.
  function Decode(text: string): Option<seq<Byte>> {
    if text == "" then Some([])
    else if |text| < 4 then None
    else
      var rest := Decode(text[4..]);
      var pad := if |text| > 4 || text[3] != '=' then 0 else if text[2] != '=' then 1 else 2;
      var v := Values(text[..4 - pad]);
      if rest.None? || v.None? then None
      else Some(Triple(v.value + [0, 0][..pad])[..3 - pad] + rest.value)
  }

  lemma {:induction false} ValuesOf(text: string, v: seq<nat>)
    requires |text| == |v| && forall i :: 0 <= i < |v| ==> v[i] < 64 && text[i] == Letter(v[i])
    ensures Values(text) == Some(v)
    decreases |text|
  {
    if text != "" {
      LetterValue(v[0]);
      ValuesOf(text[1..], v[1..]);
      assert v == [v[0]] + v[1..];
    }
  }

  function Sextets(a: Byte, b: Byte, c: Byte): (v: seq<nat>)
    ensures |v| == 4 && forall i :: 0 <= i < 4 ==> v[i] < 64 && Quad(a, b, c)[i] == Letter(v[i])
  {
    [a / 4, a % 4 * 16 + b / 16, b % 16 * 4 + c / 64, c % 64]
  }

  lemma SextetsBack(a: Byte, b: Byte, c: Byte)
    ensures Triple(Sextets(a, b, c)) == [a, b, c]
  {
  }

  lemma NoPadding(v: nat)
    requires v < 64
    ensures Letter(v) != '='
  {
  }

  lemma GroupBack(b: seq<Byte>, rest: string)
    requires 1 <= |b| <= 3 && (|b| < 3 ==> rest == "") && Decode(rest).Some?
    ensures Decode(Group(b) + rest) == Some(b + Decode(rest).value)
  {
    var b1, b2: Byte := if |b| > 1 then b[1] else 0, if |b| > 2 then b[2] else 0;
    var v := Sextets(b[0], b1, b2);
    SextetsBack(b[0], b1, b2);
    DecodeGroup(Group(b), v, 3 - |b|, rest);
    assert [b[0], b1, b2][..|b|] == b;
  }

  // One group is decoded to its bytes; only the last one may be padded.
  lemma DecodeGroup(group: string, v: seq<nat>, pad: nat, rest: string)
    requires |group| == 4 && |v| == 4 && pad <= 2 && forall i :: 0 <= i < 4 ==> v[i] < 64
    requires forall i :: 0 <= i < 4 - pad ==> group[i] == Letter(v[i])
    requires forall i :: 4 - pad <= i < 4 ==> group[i] == '=' && v[i] == 0
    requires (pad > 0 ==> rest == "") && Decode(rest).Some?
    ensures Decode(group + rest) == Some(Triple(v)[..3 - pad] + Decode(rest).value)
  {
    var text := group + rest;
    assert text[4..] == rest && text[..4 - pad] == group[..4 - pad];
    NoPadding(v[3]);
    NoPadding(v[2]);
    ValuesOf(group[..4 - pad], v[..4 - pad]);
    assert v[..4 - pad] + [0, 0][..pad] == v;
  }

  /** Decoding undoes encoding, for every byte string. */
  lemma {:induction false} DecodeEncode(bytes: seq<Byte>)
    ensures Decode(Encode(bytes)) == Some(bytes)
    decreases |bytes|
  {
    if bytes != [] {
      var n := Chunk(bytes);
      DecodeEncode(bytes[n..]);
      GroupBack(bytes[..n], Encode(bytes[n..]));
      assert bytes == bytes[..n] + bytes[n..];
    }
  }

  // The test vectors of RFC 4648, section 10, and one for the last two letters.
  lemma KnownTexts(b: seq<Byte>)
    ensures b == [] ==> Encode(b) == ""
    ensures b == [102] ==> Encode(b) == "Zg=="
    ensures b == [102, 111] ==> Encode(b) == "Zm8="
    ensures b == [102, 111, 111] ==> Encode(b) == "Zm9v"
    ensures b == [251, 255, 254] ==> Encode(b) == "-__-"
  {
    KnownGroups();
    if 1 <= |b| <= 3 { OneGroup(b); }
  }

  // Groups of three bytes are encoded one by one.
  lemma EncodeMore(b: seq<Byte>, rest: seq<Byte>)
    requires |b| == 3
    ensures Encode(b + rest) == Encode(b) + Encode(rest)
  {
    OneGroup(b);
    var bytes := b + rest;
    assert bytes[..3] == b && bytes[3..] == rest;
  }

  lemma KnownGroups()
    ensures Group([102]) == "Zg==" && Group([102, 111]) == "Zm8=" && Group([102, 111, 111]) == "Zm9v"
    ensures Group([98]) == "Yg==" && Group([251, 255, 254]) == "-__-"
  {
    assert Quad(102, 0, 0) == "ZgAA";
    assert Quad(102, 111, 0) == "Zm8A";
    assert Quad(102, 111, 111) == "Zm9v";
    assert Quad(98, 0, 0) == "YgAA";
    assert Quad(251, 255, 254) == "-__-";
  }

  lemma OneGroup(b: seq<Byte>)
    requires 1 <= |b| <= 3
    ensures Encode(b) == Group(b)
  {
    assert b[..|b|] == b && b[|b|..] == [];
    assert Group(b) + "" == Group(b);
  }

  // ---------------------------------------------------------------------------------------------
  // Padding.

  function Stripped(text: string): string {
    if text != "" && text[|text| - 1] == '=' then Stripped(text[..|text| - 1]) else text
  }

  function Padded(text: string): string {
    text + Equals((4 - |text| % 4) % 4)
  }

  // Characters of the alphabet, then at most two padding characters, to a multiple of four.
  ghost predicate Shape(text: string, body: string, pad: nat) {
    && text == body + Equals(pad) && pad <= 2 && |text| % 4 == 0
    && forall i :: 0 <= i < |body| ==> Value(body[i]).Some?
  }

  lemma GroupShape(b: seq<Byte>)
    requires 1 <= |b| <= 3
    ensures Shape(Group(b), Group(b)[..|b| + 1], 3 - |b|)
  {
  }

  lemma ShapeMore(group: string, text: string, body: string, pad: nat)
    requires |group| == 4 && (forall i :: 0 <= i < 4 ==> Value(group[i]).Some?) && Shape(text, body, pad)
    ensures Shape(group + text, group + body, pad)
  {
  }

  lemma {:induction false} EncodeShape(bytes: seq<Byte>) returns (body: string, pad: nat)
    ensures Shape(Encode(bytes), body, pad)
    decreases |bytes|
  {
    if bytes == [] {
      body, pad := "", 0;
    } else {
      var n := Chunk(bytes);
      var b := bytes[..n];
      GroupShape(b);
      if n < 3 {
        assert Encode(bytes[n..]) == "" && Group(b) + "" == Group(b);
        body, pad := Group(b)[..n + 1], 3 - n;
      } else {
        body, pad := EncodeShape(bytes[n..]);
        assert Group(b)[..4] == Group(b);
        ShapeMore(Group(b), Encode(bytes[n..]), body, pad);
        body := Group(b) + body;
      }
    }
  }

  lemma {:induction false} StrippedBody(body: string, pad: nat)
    requires forall i :: 0 <= i < |body| ==> Value(body[i]).Some?
    ensures Stripped(body + Equals(pad)) == body
  {
    var text := body + Equals(pad);
    if pad > 0 {
      assert text[..|text| - 1] == body + Equals(pad - 1);
      StrippedBody(body, pad - 1);
    } else {
      assert text == body;
    }
  }

  /** The padding that the printer strips is exactly what the parser restores from the length. */
  lemma PaddingRestored(bytes: seq<Byte>)
    ensures Padded(Stripped(Encode(bytes))) == Encode(bytes)
    ensures forall i :: 0 <= i < |Stripped(Encode(bytes))| ==> Value(Stripped(Encode(bytes))[i]).Some?
  {
    var body, pad := EncodeShape(bytes);
    StrippedBody(body, pad);
    PadAgain(|body|, pad);
  }

  lemma PadAgain(n: nat, pad: nat)
    requires pad <= 2 && (n + pad) % 4 == 0
    ensures (4 - n % 4) % 4 == pad
  {
  }

  // ---------------------------------------------------------------------------------------------
  // The address.

  datatype Fields = Fields(server: string, port: string, method_: seq<Byte>, password: seq<Byte>)

  // What the model does not spell out: the decoder's answer to text outside the alphabet, and percent decoding.
  datatype Library = Library(lenient: string -> Option<seq<Byte>>, unquote: string -> seq<Byte>)

  const COLON: Byte := 58

  function Print(f: Fields): string {
    if f.server == "" || f.port == "" || f.method_ == [] then ""
    else "ss://" + Stripped(Encode(f.method_ + [COLON] + f.password)) + "@" + f.server + ":" + f.port
  }

  // The first position of x, or the length.
  function First<T(==)>(s: seq<T>, x: T): (i: nat)
    ensures i <= |s| && (i < |s| ==> s[i] == x) && forall k :: 0 <= k < i ==> s[k] != x
  {
    if s == [] || s[0] == x then 0 else 1 + First(s[1..], x)
  }

  // The last position of x, or the length.
  function Last<T(==)>(s: seq<T>, x: T): (i: nat)
    ensures i <= |s| && (i < |s| ==> s[i] == x && forall k :: i < k < |s| ==> s[k] != x) && (i == |s| ==> x !in s)
  {
    if s == [] then 0
    else if s[|s| - 1] == x then |s| - 1
    else
      var i := Last(s[..|s| - 1], x);
      if i == |s| - 1 then |s| else i
  }

  function Base64(lib: Library, text: string): Option<seq<Byte>> {
    if Decode(text).Some? then Decode(text) else lib.lenient(text)
  }

  function Credentials(lib: Library, left: string): Option<(seq<Byte>, seq<Byte>)> {
    var raw := Base64(lib, Padded(left));
    var decoded := if raw.Some? && COLON in raw.value then raw.value else lib.unquote(left);
    var i := First(decoded, COLON);
    if i == |decoded| then None else Some((decoded[..i], decoded[i + 1..]))
  }

  function Host(part: string): Option<(string, string)> {
    var i := First(part, ':');
    if i == |part| then None else Some((part[..i], part[i + 1..]))
  }

  // What stands between the scheme and a fragment or a query.
  function Payload(tail: string): string {
    var unhashed := tail[..First(tail, '#')];
    unhashed[..First(unhashed, '?')]
  }

  // The form with the host in the open.
  function ParseSplit(lib: Library, left: string, part: string): Option<Fields> {
    var host, creds := Host(part), Credentials(lib, left);
    if host.None? || creds.None? then None else Some(Fields(host.value.0, host.value.1, creds.value.0, creds.value.1))
  }

  // The form that encodes everything.
  function ParseWhole(lib: Library, payload: string): Option<Fields> {
    var decoded := Base64(lib, Padded(payload));
    if decoded.None? then None
    else
      var split := Last(decoded.value, 64);
      if split == |decoded.value| then None
      else
        var credentials, rest := decoded.value[..split], decoded.value[split + 1..];
        var i, j := First(credentials, COLON), First(rest, COLON);
        if i == |credentials| || j == |rest| then None
        else Some(Fields(Text(rest[..j]), Text(rest[j + 1..]), credentials[..i], credentials[i + 1..]))
  }

  function Parse(lib: Library, key: string): Option<Fields> {
    if !("ss://" <= key) then None
    else
      var payload := Payload(key[5..]);
      var at := Last(payload, '@');
      if at < |payload| then ParseSplit(lib, payload[..at], payload[at + 1..]) else ParseWhole(lib, payload)
  }

  function Text(bytes: seq<Byte>): string {
    seq(|bytes|, i requires 0 <= i < |bytes| => bytes[i] as char)
  }

  // What the caller can check before storing the fields.
  predicate Printable(f: Fields) {
    && f.server != "" && f.port != "" && f.method_ != []
    && ':' !in f.server && '@' !in f.server && '#' !in f.server && '?' !in f.server
    && '@' !in f.port && '#' !in f.port && '?' !in f.port
    && COLON !in f.method_
  }

  lemma FirstSplits<T>(before: seq<T>, x: T, after: seq<T>)
    requires x !in before
    ensures var s := before + [x] + after;
      First(s, x) == |before| && s[..|before|] == before && s[|before| + 1..] == after
  {
    var s := before + [x] + after;
    assert s[|before|] == x;
    assert forall k :: 0 <= k < |before| ==> s[k] == before[k];
    assert forall k :: 0 <= k < |before| ==> before[k] in before;
  }

  lemma LastSplits<T>(before: seq<T>, x: T, after: seq<T>)
    requires x !in after
    ensures var s := before + [x] + after;
      Last(s, x) == |before| && s[..|before|] == before && s[|before| + 1..] == after
  {
    var s := before + [x] + after;
    assert s[|before|] == x;
    assert forall k :: |before| < k < |s| ==> s[k] == after[k - |before| - 1];
    assert forall k :: 0 <= k < |after| ==> after[k] in after;
  }

  lemma CredentialsBack(lib: Library, m: seq<Byte>, password: seq<Byte>)
    requires COLON !in m
    ensures Credentials(lib, Stripped(Encode(m + [COLON] + password))) == Some((m, password))
  {
    var decoded := m + [COLON] + password;
    PaddingRestored(decoded);
    DecodeEncode(decoded);
    FirstSplits(m, COLON, password);
    assert decoded[|m|] == COLON;
  }

  lemma NoSeparator(bytes: seq<Byte>, c: char)
    requires Value(c).None?
    ensures c !in Stripped(Encode(bytes))
  {
    PaddingRestored(bytes);
  }

  lemma PlainPayload(tail: string)
    requires '#' !in tail && '?' !in tail
    ensures Payload(tail) == tail
  {
  }

  lemma SplitBack(lib: Library, f: Fields)
    requires Printable(f)
    ensures ParseSplit(lib, Stripped(Encode(f.method_ + [COLON] + f.password)), f.server + [':'] + f.port) == Some(f)
  {
    FirstSplits(f.server, ':', f.port);
    CredentialsBack(lib, f.method_, f.password);
  }

  // An address whose host is in the open is parsed from the two sides of its last '@'.
  lemma OpenHost(lib: Library, left: string, host: string)
    requires '#' !in left && '?' !in left && '#' !in host && '?' !in host && '@' !in host
    ensures Parse(lib, "ss://" + (left + ['@'] + host)) == ParseSplit(lib, left, host)
  {
    var key, tail := "ss://" + (left + ['@'] + host), left + ['@'] + host;
    assert key[5..] == tail && key[..5] == "ss://";
    PlainPayload(tail);
    LastSplits(left, '@', host);
    assert Payload(key[5..]) == tail && Last(tail, '@') == |left|;
  }

  lemma PrintParts(lib: Library, f: Fields, left: string, host: string)
    requires Printable(f) && left == Stripped(Encode(f.method_ + [COLON] + f.password))
    requires host == f.server + [':'] + f.port
    ensures Parse(lib, "ss://" + (left + ['@'] + host)) == ParseSplit(lib, left, host)
  {
    NoSeparator(f.method_ + [COLON] + f.password, '#');
    NoSeparator(f.method_ + [COLON] + f.password, '?');
    OpenHost(lib, left, host);
  }

  lemma PayloadLacks(tail: string)
    ensures '#' !in Payload(tail) && '?' !in Payload(tail)
  {
    var unhashed := tail[..First(tail, '#')];
    assert '#' !in unhashed;
    assert Payload(tail) <= unhashed;
  }

  // The two sides of the last '@'.
  lemma OpenParts(lib: Library, key: string) returns (left: string, part: string)
    requires Parse(lib, key).Some? && '@' in Payload(key[5..])
    ensures Parse(lib, key) == ParseSplit(lib, left, part) && '@' !in part && '#' !in part && '?' !in part
  {
    var payload := Payload(key[5..]);
    var at := Last(payload, '@');
    PayloadLacks(key[5..]);
    assert at < |payload|;
    left, part := payload[..at], payload[at + 1..];
    forall k | 0 <= k < |part| ensures part[k] == payload[at + 1 + k] != '@' {}
  }

  lemma HostFields(lib: Library, left: string, part: string)
    requires ParseSplit(lib, left, part).Some? && '@' !in part && '#' !in part && '?' !in part
    ensures var f := ParseSplit(lib, left, part).value;
      && ':' !in f.server && '@' !in f.server && '#' !in f.server && '?' !in f.server
      && '@' !in f.port && '#' !in f.port && '?' !in f.port && COLON !in f.method_
  {
    var i := First(part, ':');
    var server, port := part[..i], part[i + 1..];
    assert ':' !in server && forall c :: c in server ==> c in part;
    assert forall c :: c in port ==> c in part;
    var raw := Base64(lib, Padded(left));
    var decoded := if raw.Some? && COLON in raw.value then raw.value else lib.unquote(left);
    assert COLON !in decoded[..First(decoded, COLON)];
  }

  lemma WholeFields(lib: Library, payload: string)
    requires ParseWhole(lib, payload).Some?
    ensures var f := ParseWhole(lib, payload).value;
      ':' !in f.server && '@' !in f.server && '@' !in f.port && COLON !in f.method_
  {
    var decoded := Base64(lib, Padded(payload)).value;
    var split := Last(decoded, 64);
    var credentials, rest := decoded[..split], decoded[split + 1..];
    var i, j := First(credentials, COLON), First(rest, COLON);
    assert 64 !in rest && COLON !in rest[..j] && COLON !in credentials[..i];
    TextLacks(rest[..j], 64);
    TextLacks(rest[..j], COLON);
    TextLacks(rest[j + 1..], 64);
  }

  lemma TextLacks(bytes: seq<Byte>, b: Byte)
    requires b !in bytes
    ensures b as char !in Text(bytes)
  {
    forall i | 0 <= i < |bytes| ensures Text(bytes)[i] != b as char { assert bytes[i] != b; }
  }

  /** No address yields a server with a colon or an '@', a port with an '@' or a method with a colon; and none with its
      host in the open yields a server or a port with the start of a fragment or a query. */
  lemma ParsedIsPrintable(lib: Library, key: string)
    requires Parse(lib, key).Some?
    ensures var f := Parse(lib, key).value;
      && ':' !in f.server && '@' !in f.server && '@' !in f.port && COLON !in f.method_
      && ('@' in Payload(key[5..]) ==> '#' !in f.server && '?' !in f.server && '#' !in f.port && '?' !in f.port)
  {
    if '@' in Payload(key[5..]) {
      var left, part := OpenParts(lib, key);
      HostFields(lib, left, part);
    } else {
      WholeFields(lib, Payload(key[5..]));
    }
  }

  // A fragment or query in the host cuts behind the separator.
  lemma SeparatorStays(left: string, host: string)
    requires '#' !in left && '?' !in left
    ensures '@' in Payload(left + ['@'] + host)
  {
    var tail := left + ['@'] + host;
    assert forall k :: 0 <= k < |left| ==> tail[k] == left[k] && left[k] in left;
    assert tail[|left|] == '@';
    var unhashed := tail[..First(tail, '#')];
    assert unhashed[|left|] == '@';
    assert forall k :: 0 <= k < |left| ==> unhashed[k] == left[k];
    assert Payload(tail)[|left|] == '@';
  }

  lemma PrintedTail(f: Fields, left: string)
    requires f.server != "" && f.port != "" && f.method_ != []
    requires left == Stripped(Encode(f.method_ + [COLON] + f.password))
    ensures Print(f) == "ss://" + (left + ['@'] + (f.server + [':'] + f.port))
    ensures Print(f)[5..] == left + ['@'] + (f.server + [':'] + f.port)
  {
  }

  lemma PrintableComesBack(lib: Library, f: Fields)
    requires Printable(f)
    ensures Parse(lib, Print(f)) == Some(f)
  {
    var left := Stripped(Encode(f.method_ + [COLON] + f.password));
    PrintedTail(f, left);
    PrintParts(lib, f, left, f.server + [':'] + f.port);
    SplitBack(lib, f);
  }

  lemma PrintedIsOpen(f: Fields)
    requires f.server != "" && f.port != "" && f.method_ != []
    ensures '@' in Payload(Print(f)[5..])
  {
    var left := Stripped(Encode(f.method_ + [COLON] + f.password));
    PrintedTail(f, left);
    NoSeparator(f.method_ + [COLON] + f.password, '#');
    NoSeparator(f.method_ + [COLON] + f.password, '?');
    SeparatorStays(left, f.server + [':'] + f.port);
  }

  lemma OnlyPrintableComesBack(lib: Library, f: Fields)
    requires f.server != "" && f.port != "" && f.method_ != [] && Parse(lib, Print(f)) == Some(f)
    ensures Printable(f)
  {
    PrintedIsOpen(f);
    ParsedIsPrintable(lib, Print(f));
  }

  /** Printing and parsing give the fields back, for every byte string as password, exactly when the server has no
      separator, the port none either, and the method no colon. */
  lemma RoundTrip(lib: Library, f: Fields)
    requires f.server != "" && f.port != "" && f.method_ != []
    ensures Parse(lib, Print(f)) == Some(f) <==> Printable(f)
  {
    if Printable(f) { PrintableComesBack(lib, f); }
    if Parse(lib, Print(f)) == Some(f) { OnlyPrintableComesBack(lib, f); }
  }

  // Fields that cannot be told apart from missing ones print nothing.
  lemma MissingFieldPrintsNothing(f: Fields)
    ensures Print(f) == "" <==> f.server == "" || f.port == "" || f.method_ == []
  {
    if f.server != "" && f.port != "" && f.method_ != [] { assert |Print(f)| >= 5; }
  }

  // Credentials that decode to a text with a colon are that text, others are percent-decoded as they stand.
  lemma CredentialsMean(lib: Library, left: string, raw: Option<seq<Byte>>)
    requires raw == Base64(lib, Padded(left))
    ensures Credentials(lib, left).Some? <==> (raw.Some? && COLON in raw.value) || COLON in lib.unquote(left)
    ensures (raw.None? || COLON !in raw.value) && Credentials(lib, left).Some? ==>
              Credentials(lib, left).value.0 <= lib.unquote(left)
  {
  }

  // The other form: everything encoded at once.
  function PrintWhole(server: seq<Byte>, port: seq<Byte>, m: seq<Byte>, password: seq<Byte>): string {
    "ss://" + Stripped(Encode((m + [COLON] + password) + [64] + (server + [COLON] + port)))
  }

  lemma WholeIsParsed(lib: Library, bytes: seq<Byte>)
    ensures var key := "ss://" + Stripped(Encode(bytes));
      Parse(lib, key) == ParseWhole(lib, Stripped(Encode(bytes)))
  {
    var text := Stripped(Encode(bytes));
    var key := "ss://" + text;
    assert key[5..] == text && key[..5] == "ss://";
    NoSeparator(bytes, '#');
    NoSeparator(bytes, '?');
    NoSeparator(bytes, '@');
    PlainPayload(text);
  }

  lemma WholeIsDecoded(lib: Library, bytes: seq<Byte>)
    ensures Base64(lib, Padded(Stripped(Encode(bytes)))) == Some(bytes)
  {
    PaddingRestored(bytes);
    DecodeEncode(bytes);
  }

  lemma TextBack(a: seq<Byte>, b: seq<Byte>)
    requires Text(a) == Text(b)
    ensures a == b
  {
    assert |a| == |Text(a)| == |b|;
    forall i | 0 <= i < |a| ensures a[i] == b[i] { assert Text(a)[i] == Text(b)[i]; }
  }

  lemma TextHas(bytes: seq<Byte>, b: Byte)
    ensures b in bytes ==> b as char in Text(bytes)
  {
    if b in bytes {
      var i :| 0 <= i < |bytes| && bytes[i] == b;
      assert Text(bytes)[i] == b as char;
    }
  }

  // What the parts must not hold to be told apart.
  predicate Separable(server: seq<Byte>, port: seq<Byte>, m: seq<Byte>) {
    COLON !in server && 64 !in server && 64 !in port && COLON !in m
  }

  lemma WholeSplits(lib: Library, text: string, server: seq<Byte>, port: seq<Byte>, m: seq<Byte>, password: seq<Byte>)
    requires Separable(server, port, m)
    requires Base64(lib, Padded(text)) == Some((m + [COLON] + password) + [64] + (server + [COLON] + port))
    ensures ParseWhole(lib, text) == Some(Fields(Text(server), Text(port), m, password))
  {
    LastSplits(m + [COLON] + password, 64, server + [COLON] + port);
    FirstSplits(m, COLON, password);
    FirstSplits(server, COLON, port);
  }

  lemma SeparableComesBack(lib: Library, server: seq<Byte>, port: seq<Byte>, m: seq<Byte>, password: seq<Byte>)
    requires Separable(server, port, m)
    ensures Parse(lib, PrintWhole(server, port, m, password)) == Some(Fields(Text(server), Text(port), m, password))
  {
    var bytes := (m + [COLON] + password) + [64] + (server + [COLON] + port);
    WholeIsParsed(lib, bytes);
    WholeIsDecoded(lib, bytes);
    WholeSplits(lib, Stripped(Encode(bytes)), server, port, m, password);
  }

  lemma OnlySeparableComesBack(lib: Library, server: seq<Byte>, port: seq<Byte>, m: seq<Byte>, password: seq<Byte>)
    requires Parse(lib, PrintWhole(server, port, m, password)) == Some(Fields(Text(server), Text(port), m, password))
    ensures Separable(server, port, m)
  {
    var bytes := (m + [COLON] + password) + [64] + (server + [COLON] + port);
    WholeIsParsed(lib, bytes);
    WholeIsDecoded(lib, bytes);
    TextHas(server, COLON);
    TextHas(server, 64);
    TextHas(port, 64);
    WholeFields(lib, Stripped(Encode(bytes)));
  }

  /** An address that is encoded as a whole gives its parts back, for every byte string as password, exactly if the
      server has neither separator, the port no '@' and the method no colon. */
  lemma WholeRoundTrip(lib: Library, server: seq<Byte>, port: seq<Byte>, m: seq<Byte>, password: seq<Byte>)
    ensures Parse(lib, PrintWhole(server, port, m, password)) == Some(Fields(Text(server), Text(port), m, password))
            <==> Separable(server, port, m)
  {
    if Separable(server, port, m) {
      SeparableComesBack(lib, server, port, m, password);
    } else if Parse(lib, PrintWhole(server, port, m, password))
              == Some(Fields(Text(server), Text(port), m, password)) {
      OnlySeparableComesBack(lib, server, port, m, password);
    }
  }

  /** A server that is an IPv6 address does not come back. */
  lemma Ipv6Example(lib: Library)
    ensures var f := Fields("::1", "443", [97], [98]); Parse(lib, Print(f)) != Some(f)
  {
    var f := Fields("::1", "443", [97], [98]);
    assert f.server[0] == ':';
    RoundTrip(lib, f);
  }
}
