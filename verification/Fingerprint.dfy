/**
 The content fingerprint of a managed path (_path_fingerprint in app/managed_state_snapshot.py:112-147): the bytes
 that are digested tell a tree from every other one, up to modes, exactly if no colon of a link can be read as the one
 between its path and its target without breaking the listing order.  File contents are byte strings, written as
 characters.
 */
module Fingerprint {
  import opened RuntimeModel

  // A path's tree: modes are kept beside the bytes that are digested.
  datatype Tree = Link(target: string) | Dir(mode: nat, entries: Entries) | File(mode: nat, content: string)

  // A directory's entries in listing order.
  datatype Entries = End | Entry(name: string, tree: Tree, rest: Entries)

  // What one visit digests.
  datatype Record = LinkAt(path: string, target: string) | DirAt(path: string) | FileAt(path: string, content: string)

  const NUL := '\0'

  function Records(t: Tree, path: string): seq<Record> {
    match t
    case Link(target) => [LinkAt(path, target)]
    case Dir(_, entries) => [DirAt(path)] + AllRecords(entries, path)
    case File(_, content) => [FileAt(path, content)]
  }

  function AllRecords(entries: Entries, dir: string): seq<Record> {
    match entries
    case End => []
    case Entry(name, tree, rest) => Records(tree, dir + "/" + name) + AllRecords(rest, dir)
  }

  function Header(r: Record): string {
    match r
    case LinkAt(path, target) => "link:" + (path + [':'] + target)
    case DirAt(path) => "dir:" + path
    case FileAt(path, content) => "file:" + (path + [':'] + Digits(|content|))
  }

  function Bytes(r: Record): string {
    Header(r) + [NUL] + if r.FileAt? then r.content else ""
  }

  function Stream(records: seq<Record>): string {
    if records == [] then "" else Bytes(records[0]) + Stream(records[1..])
  }

  // ---------------------------------------------------------------------------------------------
  // The bytes determine the records.

  // What the file system guarantees.
  predicate NulFree(r: Record) {
    NUL !in r.path && (r.LinkAt? ==> NUL !in r.target)
  }

  predicate PlainPath(r: Record) {
    r.LinkAt? ==> ':' !in r.path
  }

  // A link whose digested line has one colon between path and target and no other.
  predicate PlainLink(r: Record) {
    r.LinkAt? ==> ':' !in r.path && ':' !in r.target
  }

  // One of the two is unmistakable, or neither has a colon before its target.
  predicate Telling(r: Record, s: Record) {
    PlainLink(r) || (PlainPath(r) && PlainPath(s))
  }

  // The same record, or two links of one line.
  predicate Alike(r: Record, s: Record) {
    r == s || (r.LinkAt? && s.LinkAt? && r.path + [':'] + r.target == s.path + [':'] + s.target)
  }

  lemma SameSplit(a: string, x: string, b: string, y: string, c: char)
    requires c !in a && c !in b && a + [c] + x == b + [c] + y
    ensures a == b && x == y
  {
    SameHead(a, x, b, y, c);
    SameHead(b, y, a, x, c);
  }

  // A separator that cannot occur behind it splits just as well.
  lemma SameEnd(a: string, x: string, b: string, y: string, c: char)
    requires c !in x && c !in y && a + [c] + x == b + [c] + y
    ensures a == b && x == y
  {
    var s, t := a + [c] + x, b + [c] + y;
    forall i | |a| < i < |s| ensures s[i] != c { assert s[i] == x[i - |a| - 1]; }
    forall i | |b| < i < |s| ensures s[i] != c { assert t[i] == y[i - |b| - 1]; }
    assert s[|a|] == c && t[|b|] == c;
    assert |a| == |b|;
    assert a == s[..|a|] && b == t[..|b|] && x == s[|a| + 1..] && y == t[|b| + 1..];
  }

  // The only separator of one text is the only one of the other.
  lemma OnlyOne(a: string, x: string, b: string, y: string, c: char)
    requires c !in a && c !in x && a + [c] + x == b + [c] + y
    ensures a == b && x == y
  {
    var s, t := a + [c] + x, b + [c] + y;
    forall i | 0 <= i < |s| && i != |a| ensures s[i] != c {
      if i < |a| { assert s[i] == a[i]; } else { assert s[i] == x[i - |a| - 1]; }
    }
    assert t[|b|] == c;
    assert a == s[..|a|] && b == t[..|b|] && x == s[|a| + 1..] && y == t[|b| + 1..];
  }

  lemma HeaderHasNoNul(r: Record)
    requires NulFree(r)
    ensures NUL !in Header(r)
  {
    if r.FileAt? { DigitsOnly(|r.content|); }
    assert NUL !in "link:" && NUL !in "dir:" && NUL !in "file:";
  }

  lemma HeadersAlike(r: Record, s: Record)
    requires Header(r) == Header(s)
    ensures match r
            case LinkAt(path, target) => Alike(r, s)
            case DirAt(path) => s == r
            case FileAt(path, content) => s.FileAt? && s.path == path && |s.content| == |content|
  {
    assert Header(r)[0] == match r case LinkAt(_, _) => 'l' case DirAt(_) => 'd' case FileAt(_, _) => 'f';
    assert Header(s)[0] == match s case LinkAt(_, _) => 'l' case DirAt(_) => 'd' case FileAt(_, _) => 'f';
    match r
    case LinkAt(path, target) =>
      assert Header(r)[5..] == path + [':'] + target && Header(s)[5..] == s.path + [':'] + s.target;
    case DirAt(path) =>
      assert Header(r)[4..] == path && Header(s)[4..] == s.path;
    case FileAt(path, content) =>
      assert Header(r)[5..] == path + [':'] + Digits(|content|) &&
             Header(s)[5..] == s.path + [':'] + Digits(|s.content|);
      DigitsOnly(|content|);
      DigitsOnly(|s.content|);
      SameEnd(path, Digits(|content|), s.path, Digits(|s.content|), ':');
      DigitsDiffer(|content|, |s.content|);
  }

  // A record's end is known from its beginning, whatever follows, and so is all of it but where a link is split.
  lemma RecordsAlike(r: Record, x: string, s: Record, y: string)
    requires NulFree(r) && NulFree(s) && Bytes(r) + x == Bytes(s) + y
    ensures Alike(r, s) && x == y
  {
    var rBody, sBody := if r.FileAt? then r.content else "", if s.FileAt? then s.content else "";
    HeaderHasNoNul(r);
    HeaderHasNoNul(s);
    Regrouped(Header(r) + [NUL], rBody, x);
    Regrouped(Header(s) + [NUL], sBody, y);
    SameSplit(Header(r), rBody + x, Header(s), sBody + y, NUL);
    HeadersAlike(r, s);
    SameLength(rBody, x, sBody, y);
  }

  lemma AlikeIsSame(r: Record, s: Record)
    requires Alike(r, s) && Telling(r, s)
    ensures r == s
  {
    if r.LinkAt? {
      if ':' !in r.target {
        OnlyOne(r.path, r.target, s.path, s.target, ':');
      } else {
        SameSplit(r.path, r.target, s.path, s.target, ':');
      }
    }
  }

  // A record's end is known from its beginning, whatever follows and whatever bytes a file holds.
  lemma RecordsDiffer(r: Record, x: string, s: Record, y: string)
    requires NulFree(r) && NulFree(s) && Telling(r, s) && Bytes(r) + x == Bytes(s) + y
    ensures r == s && x == y
  {
    RecordsAlike(r, x, s, y);
    AlikeIsSame(r, s);
  }

  lemma Regrouped(a: string, b: string, c: string)
    ensures a + b + c == a + (b + c)
  {
  }

  lemma SameLength(a: string, x: string, b: string, y: string)
    requires |a| == |b| && a + x == b + y
    ensures a == b && x == y
  {
    assert a == (a + x)[..|a|] && b == (b + y)[..|b|] && x == (a + x)[|a|..] && y == (b + y)[|b|..];
  }

  /** A record shares its bytes with another one exactly if it is a link with a colon in its path or its target. */
  lemma AmbiguousRecords(r: Record)
    requires NulFree(r)
    ensures !PlainLink(r) <==> exists s :: NulFree(s) && s != r && Bytes(s) == Bytes(r)
  {
    if PlainLink(r) {
      forall s | NulFree(s) && Bytes(s) == Bytes(r) ensures s == r {
        assert Bytes(r) + "" == Bytes(s) + "";
        RecordsDiffer(r, "", s, "");
      }
    } else {
      var line := r.path + [':'] + r.target;
      var i := if ':' in r.path then IndexOf(r.path, ':') else |r.path| + 1 + IndexOf(r.target, ':');
      var s := LinkAt(line[..i], line[i + 1..]);
      Resplit(line, i);
      SameLine(r, s);
      assert |s.path| == i != |r.path|;
    }
  }

  // A line split at one of its colons.
  lemma Resplit(line: string, i: nat)
    requires i < |line| && line[i] == ':' && NUL !in line
    ensures line[..i] + [':'] + line[i + 1..] == line && NUL !in line[..i] && NUL !in line[i + 1..]
  {
  }

  lemma SameLine(r: Record, s: Record)
    requires r.LinkAt? && s.LinkAt? && r.path + [':'] + r.target == s.path + [':'] + s.target
    ensures Bytes(r) == Bytes(s)
  {
  }

  function IndexOf(s: string, c: char): (i: nat)
    requires c in s
    ensures i < |s| && s[i] == c
  {
    if s[0] == c then 0 else 1 + IndexOf(s[1..], c)
  }

  predicate AllNulFree(records: seq<Record>) {
    forall i :: 0 <= i < |records| ==> NulFree(records[i])
  }

  predicate PlainPaths(records: seq<Record>) {
    forall i :: 0 <= i < |records| ==> PlainPath(records[i])
  }

  predicate PlainLinks(records: seq<Record>) {
    forall i :: 0 <= i < |records| ==> PlainLink(records[i])
  }

  ghost predicate AllAlike(a: seq<Record>, b: seq<Record>) {
    |a| == |b| && forall i :: 0 <= i < |a| ==> Alike(a[i], b[i])
  }

  lemma AlikeJoined(a: seq<Record>, b: seq<Record>)
    requires a != [] && b != [] && Alike(a[0], b[0]) && AllAlike(a[1..], b[1..])
    ensures AllAlike(a, b)
  {
    forall i | 0 < i < |a| ensures Alike(a[i], b[i]) { assert a[i] == a[1..][i - 1] && b[i] == b[1..][i - 1]; }
  }

  lemma {:induction false} StreamsAlike(a: seq<Record>, b: seq<Record>)
    requires AllNulFree(a) && AllNulFree(b) && Stream(a) == Stream(b)
    ensures AllAlike(a, b)
    decreases |a|
  {
    if a == [] {
      if b != [] { StreamGrows(b); }
    } else if b == [] {
      StreamGrows(a);
    } else {
      assert Stream(a) == Bytes(a[0]) + Stream(a[1..]) && Stream(b) == Bytes(b[0]) + Stream(b[1..]);
      assert NulFree(a[0]) && NulFree(b[0]);
      RecordsAlike(a[0], Stream(a[1..]), b[0], Stream(b[1..]));
      StreamsAlike(a[1..], b[1..]);
      AlikeJoined(a, b);
    }
  }

  lemma StreamsDiffer(a: seq<Record>, b: seq<Record>)
    requires AllNulFree(a) && AllNulFree(b) && (PlainLinks(a) || (PlainPaths(a) && PlainPaths(b)))
    requires Stream(a) == Stream(b)
    ensures a == b
  {
    StreamsAlike(a, b);
    forall i | 0 <= i < |a| ensures a[i] == b[i] { AlikeIsSame(a[i], b[i]); }
  }

  lemma StreamGrows(a: seq<Record>)
    requires a != []
    ensures Stream(a) != ""
  {
    assert Stream(a) == Bytes(a[0]) + Stream(a[1..]);
    assert |Bytes(a[0])| > 0;
  }

  // ---------------------------------------------------------------------------------------------
  // The records determine the tree.

  predicate GoodName(name: string) {
    name != "" && name != "." && name != ".." && '/' !in name && NUL !in name
  }

  predicate GoodNames(t: Tree) {
    match t
    case Link(target) => target != "" && NUL !in target
    case Dir(_, entries) => GoodEntries(entries)
    case File(_, _) => true
  }

  predicate GoodEntries(entries: Entries) {
    entries.Entry? ==> GoodName(entries.name) && GoodNames(entries.tree) && GoodEntries(entries.rest)
  }

  function Bare(t: Tree): Tree {
    match t
    case Link(_) => t
    case Dir(_, entries) => Dir(0, BareEntries(entries))
    case File(_, content) => File(0, content)
  }

  function BareEntries(entries: Entries): Entries {
    match entries
    case End => End
    case Entry(name, tree, rest) => Entry(name, Bare(tree), BareEntries(rest))
  }

  // The records that follow are not below the path.
  ghost predicate Outside(records: seq<Record>, path: string) {
    records != [] ==> !(path + "/" <= records[0].path)
  }

  lemma FirstRecord(t: Tree, path: string)
    ensures Records(t, path) != [] && Records(t, path)[0].path == path
  {
  }

  lemma DeeperIsBelow(dir: string, name: string, path: string)
    ensures dir + "/" + name + "/" <= path ==> dir + "/" <= path
  {
  }

  lemma SiblingIsNotBelow(dir: string, name: string, other: string)
    requires '/' !in other
    ensures !(dir + "/" + name + "/" <= dir + "/" + other)
  {
    var below, path := dir + "/" + name + "/", dir + "/" + other;
    forall i | |dir| < i < |path| ensures path[i] != '/' { assert path[i] == other[i - |dir| - 1]; }
    assert below[|below| - 1] == '/';
  }

  // Another entry of the same directory is not below this one.
  lemma SiblingOutside(rest: Entries, dir: string, name: string, more: seq<Record>)
    requires GoodEntries(rest) && GoodName(name) && Outside(more, dir)
    ensures Outside(AllRecords(rest, dir) + more, dir + "/" + name)
  {
    if rest == End {
      assert AllRecords(rest, dir) + more == more;
      if more != [] { DeeperIsBelow(dir, name, more[0].path); }
    } else {
      FirstRecord(rest.tree, dir + "/" + rest.name);
      assert (AllRecords(rest, dir) + more)[0].path == dir + "/" + rest.name;
      SiblingIsNotBelow(dir, name, rest.name);
    }
  }

  lemma {:induction false} TreesDiffer(t: Tree, u: Tree, path: string, x: seq<Record>, y: seq<Record>)
    requires GoodNames(t) && GoodNames(u) && Outside(x, path) && Outside(y, path)
    requires Records(t, path) + x == Records(u, path) + y
    ensures Bare(t) == Bare(u) && x == y
    decreases t
  {
    var all := Records(t, path) + x;
    assert all[0] == Records(t, path)[0] == Records(u, path)[0];
    if t.Dir? {
      assert all[1..] == AllRecords(t.entries, path) + x && all[1..] == AllRecords(u.entries, path) + y;
      EntriesDiffer(t.entries, u.entries, path, x, y);
    } else {
      assert all[1..] == x && all[1..] == y;
    }
  }

  lemma {:induction false} EntriesDiffer(e: Entries, f: Entries, dir: string, x: seq<Record>, y: seq<Record>)
    requires GoodEntries(e) && GoodEntries(f) && Outside(x, dir) && Outside(y, dir)
    requires AllRecords(e, dir) + x == AllRecords(f, dir) + y
    ensures BareEntries(e) == BareEntries(f) && x == y
    decreases e
  {
    if e == End && f == End {
      assert AllRecords(e, dir) + x == x && AllRecords(f, dir) + y == y;
    } else if e == End {
      NotBelow(f, dir, x, y);
    } else if f == End {
      NotBelow(e, dir, y, x);
    } else {
      var p, q := dir + "/" + e.name, dir + "/" + f.name;
      var eMore, fMore := AllRecords(e.rest, dir) + x, AllRecords(f.rest, dir) + y;
      assert AllRecords(e, dir) + x == Records(e.tree, p) + eMore;
      assert AllRecords(f, dir) + y == Records(f.tree, q) + fMore;
      FirstRecord(e.tree, p);
      FirstRecord(f.tree, q);
      assert p == (Records(e.tree, p) + eMore)[0].path == (Records(f.tree, q) + fMore)[0].path == q;
      assert p[|dir| + 1..] == e.name && q[|dir| + 1..] == f.name;
      SiblingOutside(e.rest, dir, e.name, x);
      SiblingOutside(f.rest, dir, f.name, y);
      TreesDiffer(e.tree, f.tree, p, eMore, fMore);
      EntriesDiffer(e.rest, f.rest, dir, x, y);
    }
  }

  // Records from outside a directory cannot begin with an entry of it.
  lemma NotBelow(f: Entries, dir: string, x: seq<Record>, y: seq<Record>)
    requires f != End && Outside(x, dir)
    ensures x != AllRecords(f, dir) + y
  {
  }

  lemma {:induction false} NamesHaveNoNul(t: Tree, path: string)
    requires GoodNames(t) && NUL !in path
    ensures AllNulFree(Records(t, path))
    decreases t
  {
    if t.Dir? { EntriesHaveNoNul(t.entries, path); }
  }

  lemma {:induction false} EntriesHaveNoNul(entries: Entries, dir: string)
    requires GoodEntries(entries) && NUL !in dir
    ensures AllNulFree(AllRecords(entries, dir))
    decreases entries
  {
    if entries.Entry? {
      NamesHaveNoNul(entries.tree, dir + "/" + entries.name);
      EntriesHaveNoNul(entries.rest, dir);
    }
  }

  // Two trees with the same bytes are the same up to modes, if the links of one of them have no colon at all, or those
  // of both have none in their paths, in whatever order they are listed.
  lemma PlainTreesDiffer(t: Tree, u: Tree)
    requires GoodNames(t) && GoodNames(u)
    requires PlainLinks(Records(t, ".")) || (PlainPaths(Records(t, ".")) && PlainPaths(Records(u, ".")))
    requires Stream(Records(t, ".")) == Stream(Records(u, "."))
    ensures Bare(t) == Bare(u)
  {
    NamesHaveNoNul(t, ".");
    NamesHaveNoNul(u, ".");
    StreamsDiffer(Records(t, "."), Records(u, "."));
    assert Records(t, ".") + [] == Records(u, ".") + [];
    TreesDiffer(t, u, ".", [], []);
  }

  // ---------------------------------------------------------------------------------------------
  // The listing order.

  // The order of the characters, position by position.
  predicate Before(a: string, b: string) {
    b != "" && (a == "" || a[0] < b[0] || (a[0] == b[0] && Before(a[1..], b[1..])))
  }

  lemma {:induction false} BeforeIsTransitive(a: string, b: string, c: string)
    requires Before(a, b) && Before(b, c)
    ensures Before(a, c)
  {
    if a != "" && a[0] == b[0] == c[0] { BeforeIsTransitive(a[1..], b[1..], c[1..]); }
  }

  lemma {:induction false} BeforeIsStrict(a: string)
    ensures !Before(a, a)
  {
    if a != "" { BeforeIsStrict(a[1..]); }
  }

  lemma {:induction false} BeforeIsTotal(a: string, b: string)
    ensures a == b || Before(a, b) || Before(b, a)
  {
    if a != "" && b != "" && a[0] == b[0] {
      BeforeIsTotal(a[1..], b[1..]);
      assert a == [a[0]] + a[1..] && b == [b[0]] + b[1..];
    }
  }

  lemma {:induction false} PrefixIsBefore(a: string, b: string)
    requires a < b
    ensures Before(a, b)
  {
    if a != "" {
      assert a[0] == b[0] && a[1..] < b[1..];
      PrefixIsBefore(a[1..], b[1..]);
    }
  }

  lemma LaterIsDifferent(a: string, b: string, c: string)
    requires !Before(b, a) && Before(b, c)
    ensures Before(a, c) && a != c
  {
    BeforeIsTotal(a, b);
    if a != b { BeforeIsTransitive(a, b, c); }
    BeforeIsStrict(a);
  }

  predicate Sorted(t: Tree)
    decreases t
  {
    t.Dir? ==> SortedAfter("", t.entries)
  }

  // The entries behind one of this name; nothing comes before the empty name.
  predicate SortedAfter(name: string, entries: Entries)
    decreases entries
  {
    entries.Entry? ==> Before(name, entries.name) && Sorted(entries.tree) && SortedAfter(entries.name, entries.rest)
  }

  // A tree as a file system holds it and as a visit lists it.
  predicate Real(t: Tree) {
    GoodNames(t) && Sorted(t)
  }

  // ---------------------------------------------------------------------------------------------
  // The bytes determine the tree, unless a link can be split elsewhere.

  // A colon in a link's own name, or in its target before any slash, can stand for the one between them.
  predicate SplitAt(name: string, target: string, i: nat) {
    var line := name + [':'] + target;
    i < |line| && i != |name| && line[i] == ':' && GoodName(line[..i]) && line[i + 1..] != ""
  }

  // The first entry is a link that can be split there, and its other name keeps its place in the listing.
  predicate FitsAt(previous: string, entries: Entries, i: nat) {
    && entries.Entry? && entries.tree.Link? && SplitAt(entries.name, entries.tree.target, i)
    && var name := (entries.name + [':'] + entries.tree.target)[..i];
      Before(previous, name) && (entries.rest.Entry? ==> Before(name, entries.rest.name))
  }

  ghost predicate Confusable(t: Tree)
    decreases t
  {
    t.Dir? && ConfusableAfter("", t.entries)
  }

  ghost predicate ConfusableAfter(previous: string, entries: Entries)
    decreases entries
  {
    && entries.Entry?
    && ((exists i :: FitsAt(previous, entries, i)) || Confusable(entries.tree)
        || ConfusableAfter(entries.name, entries.rest))
  }

  // What follows a directory is not below it, and no line of it can be read as one of an entry.
  ghost predicate Apart(records: seq<Record>, dir: string) {
    records != [] ==> !(dir + "/" <= records[0].path) && !(records[0].path + ":" <= dir)
  }

  // Where a line begins like an entry's, its path does, or it ends inside the directory's own.
  lemma LineApart(path: string, line: string, dir: string, below: string)
    requires path + [':'] + line == dir + "/" + below
    ensures dir + "/" <= path || path + ":" <= dir
  {
    var all := path + [':'] + line;
    assert all[|path|] == ':' && all[|dir|] == '/';
    if |path| > |dir| {
      assert path == all[..|path|] && dir + "/" == all[..|dir| + 1];
    } else {
      assert |path| < |dir| && dir == all[..|dir|] && path + ":" == all[..|path| + 1];
    }
  }

  lemma NotAlike(f: Entries, dir: string, x: seq<Record>, y: seq<Record>)
    requires f != End && Apart(x, dir)
    ensures !AllAlike(x, AllRecords(f, dir) + y) && !AllAlike(AllRecords(f, dir) + y, x)
  {
    var q := dir + "/" + f.name;
    FirstRecord(f.tree, q);
    var s := (AllRecords(f, dir) + y)[0];
    assert s.path == q;
    if x != [] && (Alike(x[0], s) || Alike(s, x[0])) {
      assert x[0] != s;
      BelowDir(dir, f.name, s.target);
      LineApart(x[0].path, x[0].target, dir, f.name + [':'] + s.target);
    }
  }

  // The rest of a directory and what follows it are apart from an entry before it.
  lemma SiblingApart(rest: Entries, dir: string, name: string, more: seq<Record>)
    requires GoodEntries(rest) && GoodName(name) && SortedAfter(name, rest) && Apart(more, dir)
    ensures Apart(AllRecords(rest, dir) + more, dir + "/" + name)
  {
    SiblingOutside(rest, dir, name, more);
    if rest == End {
      assert AllRecords(rest, dir) + more == more;
      if more != [] { NotInEntry(more[0].path, dir, name); }
    } else {
      FirstRecord(rest.tree, dir + "/" + rest.name);
      assert (AllRecords(rest, dir) + more)[0].path == dir + "/" + rest.name;
      if dir + "/" + rest.name + ":" <= dir + "/" + name {
        assert rest.name + ":" == (dir + "/" + rest.name + ":")[|dir| + 1..] <= (dir + "/" + name)[|dir| + 1..] == name;
        PrefixIsBefore(rest.name, name);
        BeforeIsTransitive(name, rest.name, name);
        BeforeIsStrict(name);
      }
    }
  }

  lemma NotInEntry(path: string, dir: string, name: string)
    requires !(dir + "/" <= path) && !(path + ":" <= dir)
    ensures !(path + ":" <= dir + "/" + name)
  {
    if path + ":" <= dir + "/" + name {
      var line := (dir + "/" + name)[|path| + 1..];
      assert path + [':'] + line == dir + "/" + name;
      LineApart(path, line, dir, name);
    }
  }

  lemma AlikeParts(a: seq<Record>, x: seq<Record>, b: seq<Record>, y: seq<Record>)
    requires AllAlike(a + x, b + y) && |a| == |b|
    ensures AllAlike(a, b) && AllAlike(x, y)
  {
    forall i | 0 <= i < |a| ensures Alike(a[i], b[i]) { assert a[i] == (a + x)[i] && b[i] == (b + y)[i]; }
    forall i | 0 <= i < |x| ensures Alike(x[i], y[i]) {
      assert x[i] == (a + x)[|a| + i] && y[i] == (b + y)[|a| + i];
    }
  }

  // Alike records of one path are the same.
  lemma AlikeThere(r: Record, s: Record)
    requires Alike(r, s) && r.path == s.path
    ensures r == s
  {
    if r != s { SameLength(r.path + [':'], r.target, s.path + [':'], s.target); }
  }

  // Two links of one line and different names are splits of each other.
  lemma IsSplit(name: string, target: string, other: string, otherTarget: string, dir: string)
    requires GoodName(other) && otherTarget != "" && name != other
    requires Alike(LinkAt(dir + "/" + name, target), LinkAt(dir + "/" + other, otherTarget))
    ensures SplitAt(name, target, |other|) && (name + [':'] + target)[..|other|] == other
  {
    var line, otherLine := name + [':'] + target, other + [':'] + otherTarget;
    BelowDir(dir, name, target);
    BelowDir(dir, other, otherTarget);
    SameLength(dir + "/", line, dir + "/", otherLine);
    assert otherLine[..|other|] == other && otherLine[|other|] == ':' && otherLine[|other| + 1..] == otherTarget;
    assert line[..|name|] == name;
  }

  lemma HeadsAlike(a: seq<Record>, x: seq<Record>, b: seq<Record>, y: seq<Record>)
    requires a != [] && b != [] && AllAlike(a + x, b + y)
    ensures Alike(a[0], b[0]) && AllAlike(a[1..] + x, b[1..] + y)
  {
    assert a[0] == (a + x)[0] && b[0] == (b + y)[0];
    assert a + x == [a[0]] + (a[1..] + x) && b + y == [b[0]] + (b[1..] + y);
    AlikeParts([a[0]], a[1..] + x, [b[0]], b[1..] + y);
  }

  lemma FirstTree(e: Entries, dir: string, x: seq<Record>)
    requires e.Entry?
    ensures AllRecords(e, dir) + x == Records(e.tree, dir + "/" + e.name) + (AllRecords(e.rest, dir) + x)
  {
  }

  // Directories that are visited alike and begin with different names begin with links.
  lemma FirstEntries(e: Entries, f: Entries, dir: string, x: seq<Record>, y: seq<Record>)
    requires e.Entry? && f.Entry? && e.name != f.name && AllAlike(AllRecords(e, dir) + x, AllRecords(f, dir) + y)
    ensures e.tree.Link? && f.tree.Link?
    ensures Alike(LinkAt(dir + "/" + e.name, e.tree.target), LinkAt(dir + "/" + f.name, f.tree.target))
    ensures AllAlike(AllRecords(e.rest, dir) + x, AllRecords(f.rest, dir) + y)
  {
    var p, q := dir + "/" + e.name, dir + "/" + f.name;
    var a, b := Records(e.tree, p), Records(f.tree, q);
    var eMore, fMore := AllRecords(e.rest, dir) + x, AllRecords(f.rest, dir) + y;
    FirstTree(e, dir, x);
    FirstTree(f, dir, y);
    FirstRecord(e.tree, p);
    FirstRecord(f.tree, q);
    HeadsAlike(a, eMore, b, fMore);
    assert p[|dir| + 1..] == e.name && q[|dir| + 1..] == f.name;
    assert a[1..] + eMore == eMore && b[1..] + fMore == fMore;
  }

  // If two directories are visited alike and their first names differ, one of the splits behind it keeps the order.
  lemma {:induction false} OneSplitFits(
    previous: string, e: Entries, f: Entries, dir: string, x: seq<Record>, y: seq<Record>
  )
    requires GoodEntries(e) && GoodEntries(f) && SortedAfter(previous, e) && SortedAfter(previous, f)
    requires Apart(x, dir) && Apart(y, dir) && AllAlike(AllRecords(e, dir) + x, AllRecords(f, dir) + y)
    requires e.Entry? && f.Entry? && e.name != f.name
    ensures ConfusableAfter(previous, e)
    decreases e
  {
    FirstEntries(e, f, dir, x, y);
    IsSplit(e.name, e.tree.target, f.name, f.tree.target, dir);
    if e.rest == End || Before(f.name, e.rest.name) {
      assert FitsAt(previous, e, |f.name|);
    } else {
      if f.rest == End {
        assert AllRecords(f.rest, dir) + y == y;
        NotAlike(e.rest, dir, y, x);
      } else {
        LaterIsDifferent(e.rest.name, f.name, f.rest.name);
        BeforeIsTransitive(e.name, e.rest.name, f.rest.name);
        OneSplitFits(e.name, e.rest, f.rest, dir, x, y);
      }
    }
  }

  // Trees that are visited alike at one path are of one kind, and what follows their first records is alike.
  lemma RootsAlike(t: Tree, u: Tree, path: string, x: seq<Record>, y: seq<Record>)
    requires AllAlike(Records(t, path) + x, Records(u, path) + y)
    ensures match t
            case Link(_) => u == t && AllAlike(x, y)
            case File(_, content) => u.File? && u.content == content && AllAlike(x, y)
            case Dir(_, entries) => u.Dir? && AllAlike(AllRecords(entries, path) + x, AllRecords(u.entries, path) + y)
  {
    var a, b := Records(t, path), Records(u, path);
    FirstRecord(t, path);
    FirstRecord(u, path);
    HeadsAlike(a, x, b, y);
    AlikeThere(a[0], b[0]);
    if t.Dir? {
      assert a[1..] == AllRecords(t.entries, path) && b[1..] == AllRecords(u.entries, path);
    } else {
      assert a[1..] + x == x && b[1..] + y == y;
    }
  }

  lemma {:induction false} TreesTold(t: Tree, u: Tree, path: string, x: seq<Record>, y: seq<Record>)
    requires Real(t) && Real(u) && !Confusable(t) && Apart(x, path) && Apart(y, path)
    requires AllAlike(Records(t, path) + x, Records(u, path) + y)
    ensures Bare(t) == Bare(u) && AllAlike(x, y)
    decreases t
  {
    RootsAlike(t, u, path, x, y);
    if t.Dir? { EntriesTold("", t.entries, u.entries, path, x, y); }
  }

  lemma {:induction false} EntriesTold(
    previous: string, e: Entries, f: Entries, dir: string, x: seq<Record>, y: seq<Record>
  )
    requires GoodEntries(e) && GoodEntries(f) && SortedAfter(previous, e) && SortedAfter(previous, f)
    requires !ConfusableAfter(previous, e) && Apart(x, dir) && Apart(y, dir)
    requires AllAlike(AllRecords(e, dir) + x, AllRecords(f, dir) + y)
    ensures BareEntries(e) == BareEntries(f) && AllAlike(x, y)
    decreases e
  {
    if e == End && f == End {
      assert AllRecords(e, dir) + x == x && AllRecords(f, dir) + y == y;
    } else if e == End {
      assert AllRecords(e, dir) + x == x;
      NotAlike(f, dir, x, y);
    } else if f == End {
      assert AllRecords(f, dir) + y == y;
      NotAlike(e, dir, y, x);
    } else if e.name != f.name {
      OneSplitFits(previous, e, f, dir, x, y);
    } else {
      SiblingApart(e.rest, dir, e.name, x);
      SiblingApart(f.rest, dir, f.name, y);
      FirstTree(e, dir, x);
      FirstTree(f, dir, y);
      TreesTold(e.tree, f.tree, dir + "/" + e.name, AllRecords(e.rest, dir) + x, AllRecords(f.rest, dir) + y);
      EntriesTold(e.name, e.rest, f.rest, dir, x, y);
    }
  }

  /** Two trees with the same digested bytes are the same up to modes, unless both are confusable. */
  lemma TellsApart(t: Tree, u: Tree)
    requires Real(t) && Real(u) && !Confusable(t)
    requires Stream(Records(t, ".")) == Stream(Records(u, "."))
    ensures Bare(t) == Bare(u)
  {
    NamesHaveNoNul(t, ".");
    NamesHaveNoNul(u, ".");
    StreamsAlike(Records(t, "."), Records(u, "."));
    assert Records(t, ".") + [] == Records(t, ".") && Records(u, ".") + [] == Records(u, ".");
    TreesTold(t, u, ".", [], []);
  }

  /** The digested bytes tell a tree from every other one, up to modes, exactly if no link of it can be split elsewhere
      under a name that keeps the listing order. */
  lemma BytesDetermineTree(t: Tree)
    requires Real(t)
    ensures !Confusable(t) <==>
            forall u :: Real(u) && Stream(Records(u, ".")) == Stream(Records(t, ".")) ==> Bare(u) == Bare(t)
  {
    if Confusable(t) {
      var u := ConfusedWith(t, ".");
    } else {
      forall u | Real(u) && Stream(Records(u, ".")) == Stream(Records(t, ".")) ensures Bare(u) == Bare(t) {
        TellsApart(t, u);
      }
    }
  }

  lemma {:induction false} StreamAppend(a: seq<Record>, b: seq<Record>)
    ensures Stream(a + b) == Stream(a) + Stream(b)
  {
    if a == [] {
      assert a + b == b;
    } else {
      assert (a + b)[1..] == a[1..] + b;
      StreamAppend(a[1..], b);
    }
  }

  lemma OtherLink(name: string, target: string, i: nat, dir: string)
    requires GoodName(name) && NUL !in target && SplitAt(name, target, i)
    ensures var line := name + [':'] + target;
      && NUL !in line[i + 1..] && line[..i] != name
      && Stream(Records(Link(line[i + 1..]), dir + "/" + line[..i])) == Stream(Records(Link(target), dir + "/" + name))
  {
    var line := name + [':'] + target;
    Resplit(line, i);
    var r, s := LinkAt(dir + "/" + name, target), LinkAt(dir + "/" + line[..i], line[i + 1..]);
    BelowDir(dir, name, target);
    BelowDir(dir, line[..i], line[i + 1..]);
    SameLine(r, s);
    assert |line[..i]| == i;
    StreamOfOne(r);
    StreamOfOne(s);
  }

  lemma BelowDir(dir: string, name: string, target: string)
    ensures dir + "/" + name + [':'] + target == dir + "/" + (name + [':'] + target)
  {
  }

  lemma StreamOfOne(r: Record)
    ensures Stream([r]) == Bytes(r)
  {
    assert Stream([r][1..]) == "";
  }

  /** The other tree of a confusable one: a file system can hold it too, and it is visited in its own listing order. */
  lemma {:induction false} ConfusedWith(t: Tree, path: string) returns (u: Tree)
    requires Real(t) && Confusable(t)
    ensures Real(u) && Bare(u) != Bare(t) && Stream(Records(u, path)) == Stream(Records(t, path))
    decreases t
  {
    var entries := EntriesConfusedWith("", t.entries, path);
    u := Dir(t.mode, entries);
    StreamAppend([DirAt(path)], AllRecords(t.entries, path));
    StreamAppend([DirAt(path)], AllRecords(entries, path));
  }

  lemma {:induction false} EntriesConfusedWith(previous: string, e: Entries, dir: string) returns (f: Entries)
    requires GoodEntries(e) && SortedAfter(previous, e) && ConfusableAfter(previous, e)
    ensures GoodEntries(f) && SortedAfter(previous, f) && BareEntries(f) != BareEntries(e)
    ensures Stream(AllRecords(f, dir)) == Stream(AllRecords(e, dir))
    decreases e
  {
    if i: nat :| FitsAt(previous, e, i) {
      var line := e.name + [':'] + e.tree.target;
      OtherLink(e.name, e.tree.target, i, dir);
      f := Entry(line[..i], Link(line[i + 1..]), e.rest);
    } else if Confusable(e.tree) {
      var u := ConfusedWith(e.tree, dir + "/" + e.name);
      f := Entry(e.name, u, e.rest);
    } else {
      var rest := EntriesConfusedWith(e.name, e.rest, dir);
      f := Entry(e.name, e.tree, rest);
    }
    StreamAppend(Records(e.tree, dir + "/" + e.name), AllRecords(e.rest, dir));
    StreamAppend(Records(f.tree, dir + "/" + f.name), AllRecords(f.rest, dir));
  }

  lemma OneLink(name: string, target: string)
    ensures Records(Dir(0, Entry(name, Link(target), End)), ".") == [DirAt(".")] + [LinkAt("./" + name, target)]
    ensures GoodName(name) && target != "" && NUL !in target ==> Real(Dir(0, Entry(name, Link(target), End)))
  {
    var path := "." + "/" + name;
    assert path == "./" + name && Records(Link(target), path) == [LinkAt(path, target)];
    assert AllRecords(Entry(name, Link(target), End), ".") == Records(Link(target), path) + [];
  }

  // A colon in a link's name: two different trees are digested alike.
  lemma ColonExample()
    ensures var t := Dir(0, Entry("a:b", Link("c"), End)); var u := Dir(0, Entry("a", Link("b:c"), End));
      Stream(Records(t, ".")) == Stream(Records(u, ".")) && Bare(t) != Bare(u) && Real(t) && Real(u)
  {
    var r, s := LinkAt("./" + "a:b", "c"), LinkAt("./" + "a", "b:c");
    assert GoodName("a:b");
    assert GoodName("a");
    assert "a:b"[1] == ':' && |"a"| == 1 && "a" == ['a'];
    OneLink("a:b", "c");
    OneLink("a", "b:c");
    StreamAppend([DirAt(".")], [r]);
    StreamAppend([DirAt(".")], [s]);
    StreamOfOne(r);
    StreamOfOne(s);
    SameLine(r, s);
  }

  lemma OnlySplit(i: nat)
    ensures SplitAt("a:b", "c", i) <==> i == 1
  {
    assert "a:b" + [':'] + "c" == "a:b:c" && "a:b:c"[..1] == "a";
  }

  /** The same link behind a file "a": the only other name it could have is taken, so nothing is digested like it. */
  lemma TakenNameExample(u: Tree)
    requires var t := Dir(0, Entry("a", File(0, ""), Entry("a:b", Link("c"), End)));
      Real(u) && Stream(Records(u, ".")) == Stream(Records(t, "."))
    ensures SplitAt("a:b", "c", 1)
    ensures Bare(u) == Dir(0, Entry("a", File(0, ""), Entry("a:b", Link("c"), End)))
  {
    var rest := Entry("a:b", Link("c"), End);
    var t := Dir(0, Entry("a", File(0, ""), rest));
    assert "a:b" + [':'] + "c" == "a:b:c" && "a:b:c"[..1] == "a";
    BeforeIsStrict("a");
    forall i: nat ensures !FitsAt("a", rest, i) { OnlySplit(i); }
    assert !ConfusableAfter("a:b", End) && !Confusable(Link("c"));
    assert !ConfusableAfter("a", rest);
    TellsApart(t, u);
  }
}
