/**
 Backup and restore of the managed paths (app/managed_state_snapshot.py:221-322, 351-410).  Managed paths do not nest,
 so each has a tree of its own; digests are taken to identify the bytes they are made of.  Contents behind managed
 symbolic links are not part of this model.
 */
module StateSnapshot {
  import opened Wrappers
  import opened Fingerprint

  type Files = map<string, Tree>
  type Modes = map<string, nat>

  datatype Item = Item(path: string, present: bool, digest: string, modes: Modes)

  // The manifest and the copies; the copies may be damaged before a restore.
  datatype Snapshot = Snapshot(items: seq<Item>, stored: Files)

  function Digest(t: Tree): string {
    Stream(Records(t, "."))
  }

  function ModesOf(t: Tree, path: string): Modes {
    match t
    case Link(_) => map[]
    case Dir(mode, entries) => EntryModes(entries, path)[path := mode]
    case File(mode, _) => map[path := mode]
  }

  function EntryModes(entries: Entries, dir: string): Modes {
    match entries
    case End => map[]
    case Entry(name, tree, rest) => EntryModes(rest, dir) + ModesOf(tree, dir + "/" + name)
  }

  // chmod of every listed path that the tree has.
  function ApplyModes(t: Tree, modes: Modes, path: string): Tree {
    match t
    case Link(_) => t
    case Dir(mode, entries) => Dir(if path in modes then modes[path] else mode, ApplyEntryModes(entries, modes, path))
    case File(mode, content) => File(if path in modes then modes[path] else mode, content)
  }

  function ApplyEntryModes(entries: Entries, modes: Modes, dir: string): Entries {
    match entries
    case End => End
    case Entry(name, tree, rest) =>
      Entry(name, ApplyModes(tree, modes, dir + "/" + name), ApplyEntryModes(rest, modes, dir))
  }

  function Saved(fs: Files, path: string): Item {
    if path in fs then Item(path, true, Digest(fs[path]), ModesOf(fs[path], ".")) else Item(path, false, "", map[])
  }

  function Backup(fs: Files, paths: seq<string>): (s: Snapshot)
    ensures |s.items| == |paths| && forall i :: 0 <= i < |paths| ==> s.items[i] == Saved(fs, paths[i])
  {
    Snapshot(seq(|paths|, i requires 0 <= i < |paths| => Saved(fs, paths[i])), map p | p in paths && p in fs :: fs[p])
  }

  predicate ItemVerified(s: Snapshot, item: Item) {
    if item.present then
      && item.path in s.stored && Digest(s.stored[item.path]) == item.digest
      && ModesOf(s.stored[item.path], ".").Keys == item.modes.Keys
    else item.path !in s.stored
  }

  // The manifest names every managed path once, and every copy is what the manifest says.
  predicate Verified(s: Snapshot, paths: seq<string>) {
    && |s.items| == |paths|
    && (forall i, j :: 0 <= i < j < |s.items| ==> s.items[i].path != s.items[j].path)
    && (forall i :: 0 <= i < |s.items| ==> s.items[i].path in paths && ItemVerified(s, s.items[i]))
  }

  predicate Matches(fs: Files, item: Item) {
    if item.present then
      item.path in fs && Digest(fs[item.path]) == item.digest && ModesOf(fs[item.path], ".") == item.modes
    else item.path !in fs
  }

  function RestoreItem(fs: Files, s: Snapshot, item: Item): Files
    requires ItemVerified(s, item)
  {
    if Matches(fs, item) then fs
    else if !item.present then fs - {item.path}
    else
      var tree := if item.path in fs && Digest(fs[item.path]) == item.digest then fs[item.path]
                  else s.stored[item.path];
      fs[item.path := ApplyModes(tree, item.modes, ".")]
  }

  function Restored(fs: Files, s: Snapshot, n: nat): Files
    requires n <= |s.items| && forall i :: 0 <= i < |s.items| ==> ItemVerified(s, s.items[i])
  {
    if n == 0 then fs else RestoreItem(Restored(fs, s, n - 1), s, s.items[n - 1])
  }

  class ManagedState {
    var files: Files

    constructor (files: Files)
      ensures this.files == files
    {
      this.files := files;
    }

    method BackupManagedState(paths: seq<string>) returns (s: Snapshot)
      ensures s == Backup(files, paths)
    {
      var items: seq<Item>, stored: Files := [], map[];
      for i := 0 to |paths|
        invariant items == Backup(files, paths).items[..i]
        invariant stored == map p | p in paths[..i] && p in files :: files[p]
      {
        assert paths[..i + 1] == paths[..i] + [paths[i]];
        if paths[i] in files { stored := stored[paths[i] := files[paths[i]]]; }
        items := items + [Saved(files, paths[i])];
      }
      assert paths[..|paths|] == paths;
      s := Snapshot(items, stored);
    }

    /** A snapshot that fails verification changes nothing; otherwise every item is restored in turn. */
    method RestoreManagedState(s: Snapshot, paths: seq<string>) returns (ok: bool)
      modifies this
      ensures ok == Verified(s, paths)
      ensures files == if ok then Restored(old(files), s, |s.items|) else old(files)
    {
      ok := Verified(s, paths);
      if !ok { return; }
      for i := 0 to |s.items|
        invariant files == Restored(old(files), s, i)
      {
        var item := s.items[i];
        if !Matches(files, item) {
          if !item.present {
            files := files - {item.path};
          } else {
            if item.path !in files || Digest(files[item.path]) != item.digest {
              files := files[item.path := s.stored[item.path]];
            }
            files := files[item.path := ApplyModes(files[item.path], item.modes, ".")];
          }
        }
      }
    }
  }

  // ---------------------------------------------------------------------------------------------
  // Modes are read back from where they were taken.

  predicate DistinctNames(t: Tree) {
    t.Dir? ==> DistinctEntries(t.entries)
  }

  predicate DistinctEntries(entries: Entries) {
    entries.Entry? ==>
      DistinctNames(entries.tree) && DistinctEntries(entries.rest) && !Names(entries.rest, entries.name)
  }

  predicate Names(entries: Entries, name: string) {
    entries.Entry? && (entries.name == name || Names(entries.rest, name))
  }

  lemma {:induction false} SortedIsDistinct(t: Tree)
    requires Sorted(t)
    ensures DistinctNames(t)
    decreases t
  {
    if t.Dir? { SortedAreDistinct("", t.entries); }
  }

  lemma {:induction false} SortedAreDistinct(previous: string, entries: Entries)
    requires SortedAfter(previous, entries)
    ensures DistinctEntries(entries)
    ensures forall name :: Names(entries, name) ==> Before(previous, name)
    decreases entries
  {
    if entries.Entry? {
      SortedIsDistinct(entries.tree);
      SortedAreDistinct(entries.name, entries.rest);
      BeforeIsStrict(entries.name);
      forall name | Names(entries.rest, name) ensures Before(previous, name) {
        BeforeIsTransitive(previous, entries.name, name);
      }
    }
  }

  // The modes at and below a path are those of the tree there.
  predicate Agrees(t: Tree, modes: Modes, path: string) {
    match t
    case Link(_) => true
    case Dir(mode, entries) => path in modes && modes[path] == mode && AgreesAll(entries, modes, path)
    case File(mode, _) => path in modes && modes[path] == mode
  }

  predicate AgreesAll(entries: Entries, modes: Modes, dir: string) {
    entries.Entry? ==> Agrees(entries.tree, modes, dir + "/" + entries.name) && AgreesAll(entries.rest, modes, dir)
  }

  predicate AtOrBelow(key: string, path: string) {
    key == path || path + "/" <= key
  }

  lemma {:induction false} KeysBelow(t: Tree, path: string)
    ensures forall k :: k in ModesOf(t, path) ==> AtOrBelow(k, path)
    decreases t
  {
    if t.Dir? { EntryKeysBelow(t.entries, path); }
  }

  lemma {:induction false} EntryKeysBelow(entries: Entries, dir: string)
    ensures forall k :: k in EntryModes(entries, dir) ==> dir + "/" <= k
    decreases entries
  {
    if entries.Entry? {
      KeysBelow(entries.tree, dir + "/" + entries.name);
      EntryKeysBelow(entries.rest, dir);
      forall k | AtOrBelow(k, dir + "/" + entries.name) ensures dir + "/" <= k { DeeperIsBelow(dir, entries.name, k); }
    }
  }

  // Changing modes elsewhere does not matter to a tree.
  lemma {:induction false} AgreesElsewhere(t: Tree, m: Modes, n: Modes, path: string)
    requires Agrees(t, m, path) && forall k :: AtOrBelow(k, path) && k in m ==> k in n && n[k] == m[k]
    ensures Agrees(t, n, path)
    decreases t
  {
    if t.Dir? {
      forall k | path + "/" <= k && k in m ensures k in n && n[k] == m[k] { assert AtOrBelow(k, path); }
      AllAgreeElsewhere(t.entries, m, n, path);
    }
  }

  lemma {:induction false} AllAgreeElsewhere(entries: Entries, m: Modes, n: Modes, dir: string)
    requires AgreesAll(entries, m, dir) && forall k :: dir + "/" <= k && k in m ==> k in n && n[k] == m[k]
    ensures AgreesAll(entries, n, dir)
    decreases entries
  {
    if entries.Entry? {
      var path := dir + "/" + entries.name;
      forall k | AtOrBelow(k, path) && k in m ensures k in n && n[k] == m[k] { DeeperIsBelow(dir, entries.name, k); }
      AgreesElsewhere(entries.tree, m, n, path);
      AllAgreeElsewhere(entries.rest, m, n, dir);
    }
  }

  // A path cannot be below two entries of one directory.
  lemma SiblingsApart(dir: string, a: string, b: string, k: string)
    requires GoodName(a) && GoodName(b) && AtOrBelow(k, dir + "/" + a) && AtOrBelow(k, dir + "/" + b)
    ensures a == b
  {
    var s := k + "/";
    var n := |dir| + 1;
    assert dir + "/" + a + "/" <= s && dir + "/" + b + "/" <= s;
    var x, y := s[n + |a| + 1..], s[n + |b| + 1..];
    assert s[n..] == a + ['/'] + x && s[n..] == b + ['/'] + y;
    SameSplit(a, x, b, y, '/');
  }

  lemma {:induction false} RestKeysApart(rest: Entries, dir: string, name: string)
    requires GoodEntries(rest) && GoodName(name) && !Names(rest, name)
    ensures forall k :: k in EntryModes(rest, dir) ==> !AtOrBelow(k, dir + "/" + name)
    decreases rest
  {
    if rest.Entry? {
      RestKeysApart(rest.rest, dir, name);
      KeysBelow(rest.tree, dir + "/" + rest.name);
      forall k | k in ModesOf(rest.tree, dir + "/" + rest.name) ensures !AtOrBelow(k, dir + "/" + name) {
        if AtOrBelow(k, dir + "/" + name) { SiblingsApart(dir, rest.name, name, k); }
      }
    }
  }

  // A tree agrees with its own modes.
  lemma {:induction false} OwnModes(t: Tree, path: string)
    requires GoodNames(t) && DistinctNames(t)
    ensures Agrees(t, ModesOf(t, path), path)
    decreases t
  {
    if t.Dir? {
      OwnEntryModes(t.entries, path);
      EntryKeysBelow(t.entries, path);
      AllAgreeElsewhere(t.entries, EntryModes(t.entries, path), ModesOf(t, path), path);
    }
  }

  lemma {:induction false} OwnEntryModes(entries: Entries, dir: string)
    requires GoodEntries(entries) && DistinctEntries(entries)
    ensures AgreesAll(entries, EntryModes(entries, dir), dir)
    decreases entries
  {
    if entries.Entry? {
      var path := dir + "/" + entries.name;
      OwnModes(entries.tree, path);
      AgreesElsewhere(entries.tree, ModesOf(entries.tree, path), EntryModes(entries, dir), path);
      OwnEntryModes(entries.rest, dir);
      RestKeysApart(entries.rest, dir, entries.name);
      KeysBelow(entries.tree, path);
      AllAgreeElsewhere(entries.rest, EntryModes(entries.rest, dir), EntryModes(entries, dir), dir);
    }
  }

  lemma {:induction false} ModesApplied(t: Tree, u: Tree, modes: Modes, path: string)
    requires Bare(t) == Bare(u) && Agrees(u, modes, path)
    ensures ApplyModes(t, modes, path) == u
    decreases t
  {
    if t.Dir? { EntryModesApplied(t.entries, u.entries, modes, path); }
  }

  lemma {:induction false} EntryModesApplied(e: Entries, f: Entries, modes: Modes, dir: string)
    requires BareEntries(e) == BareEntries(f) && AgreesAll(f, modes, dir)
    ensures ApplyEntryModes(e, modes, dir) == f
    decreases e
  {
    if e.Entry? {
      ModesApplied(e.tree, f.tree, modes, dir + "/" + e.name);
      EntryModesApplied(e.rest, f.rest, modes, dir);
    }
  }

  // A tree whose own modes are the given ones is left as it is.
  lemma {:induction false} ModesKept(t: Tree, modes: Modes, path: string)
    requires Agrees(t, modes, path)
    ensures ApplyModes(t, modes, path) == t
  {
    ModesApplied(t, t, modes, path);
  }

  // ---------------------------------------------------------------------------------------------
  // Backup, any change, restore.

  ghost predicate AllReal(fs: Files) {
    forall p :: p in fs ==> Real(fs[p])
  }

  // No link has a colon in its path.
  ghost predicate PathsPlain(fs: Files) {
    forall p :: p in fs ==> PlainPaths(Records(fs[p], "."))
  }

  // The managed trees are those that nothing else is digested like.
  ghost predicate Tellable(before: Files, paths: seq<string>) {
    forall p :: p in paths && p in before ==> !Confusable(before[p])
  }

  // The digests of what was backed up fit nothing else in the files and the copies.
  ghost predicate Told(before: Files, paths: seq<string>, fs: Files, copies: Files) {
    Tellable(before, paths) || (PathsPlain(before) && PathsPlain(fs) && PathsPlain(copies))
  }

  // Both have the path or neither has, with the same tree there.
  predicate Same(fs: Files, gs: Files, path: string) {
    (path in fs <==> path in gs) && (path in fs ==> gs[path] == fs[path])
  }

  // None of the first n items.
  predicate Unnamed(s: Snapshot, n: nat, path: string)
    requires n <= |s.items|
  {
    forall i :: 0 <= i < n ==> s.items[i].path != path
  }

  lemma ItemRestored(before: Files, paths: seq<string>, fs: Files, s: Snapshot, path: string)
    requires AllReal(before) && AllReal(fs) && AllReal(s.stored) && Told(before, paths, fs, s.stored) && path in paths
    requires ItemVerified(s, Saved(before, path))
    ensures var after := RestoreItem(fs, s, Saved(before, path));
      && Same(before, after, path) && (forall p :: p != path ==> Same(fs, after, p))
      && AllReal(after) && Told(before, paths, after, s.stored)
  {
    var item := Saved(before, path);
    if item.present {
      var u := before[path];
      var t := if path in fs && Digest(fs[path]) == item.digest then fs[path] else s.stored[path];
      if Confusable(u) { PlainTreesDiffer(u, t); } else { TellsApart(u, t); }
      SortedIsDistinct(u);
      OwnModes(u, ".");
      ModesApplied(t, u, item.modes, ".");
      if Matches(fs, item) {
        SortedIsDistinct(t);
        OwnModes(t, ".");
        ModesKept(t, item.modes, ".");
      }
    }
  }

  // The manifest is one of these trees, and the copies fit it.
  ghost predicate Describes(s: Snapshot, before: Files, paths: seq<string>) {
    && (forall i, j :: 0 <= i < j < |s.items| ==> s.items[i].path != s.items[j].path)
    && (forall i :: 0 <= i < |s.items| ==> ItemVerified(s, s.items[i]))
    && (forall i :: 0 <= i < |s.items| ==>
          s.items[i].path in paths && s.items[i] == Saved(before, s.items[i].path))
  }

  lemma {:induction false} AllRestored(before: Files, paths: seq<string>, fs: Files, s: Snapshot, n: nat)
    requires n <= |s.items| && AllReal(before) && AllReal(fs) && AllReal(s.stored)
    requires Told(before, paths, fs, s.stored) && Describes(s, before, paths)
    ensures var after := Restored(fs, s, n);
      && AllReal(after) && Told(before, paths, after, s.stored)
      && (forall i :: 0 <= i < n ==> Same(before, after, s.items[i].path))
      && (forall p :: Unnamed(s, n, p) ==> Same(fs, after, p))
  {
    if n > 0 {
      AllRestored(before, paths, fs, s, n - 1);
      var earlier, path := Restored(fs, s, n - 1), s.items[n - 1].path;
      ItemRestored(before, paths, earlier, s, path);
      forall i | 0 <= i < n ensures Same(before, Restored(fs, s, n), s.items[i].path) {
        if i < n - 1 { assert Same(earlier, Restored(fs, s, n), s.items[i].path); }
      }
      forall p | Unnamed(s, n, p) ensures Same(fs, Restored(fs, s, n), p) {
        assert Unnamed(s, n - 1, p) && s.items[n - 1].path != p;
      }
    }
  }

  // Every managed path has its own tree back and no other path has changed.
  ghost predicate BroughtBack(before: Files, paths: seq<string>, now: Files, after: Files) {
    (forall p :: p in paths ==> Same(before, after, p)) && (forall p :: p !in paths ==> Same(now, after, p))
  }

  /** Back up trees that are told from every other one, change the files and even the copies in any way, restore: if the
      snapshot still verifies, every managed path is exactly as it was, with its modes, and every other path is as it is
      now.  Other trees come back as well if nothing ever has a colon in a link's path. */
  lemma BackupRestores(before: Files, paths: seq<string>, now: Files, copies: Files)
    requires AllReal(before) && AllReal(now) && AllReal(copies) && Told(before, paths, now, copies)
    requires Verified(Backup(before, paths).(stored := copies), paths)
    ensures var s := Backup(before, paths).(stored := copies);
      BroughtBack(before, paths, now, Restored(now, s, |s.items|))
  {
    var s := Backup(before, paths).(stored := copies);
    BackupDescribes(before, paths, copies);
    AllRestored(before, paths, now, s, |s.items|);
    var after := Restored(now, s, |s.items|);
    forall p | p in paths ensures Same(before, after, p) {
      var i :| 0 <= i < |paths| && paths[i] == p;
      assert s.items[i].path == p;
    }
    forall p | p !in paths ensures Same(now, after, p) { assert Unnamed(s, |s.items|, p); }
  }

  lemma BackupDescribes(before: Files, paths: seq<string>, copies: Files)
    requires Verified(Backup(before, paths).(stored := copies), paths)
    ensures var s := Backup(before, paths).(stored := copies);
      Describes(s, before, paths) && forall i :: 0 <= i < |paths| ==> s.items[i].path == paths[i]
  {
    var s := Backup(before, paths).(stored := copies);
    forall i | 0 <= i < |paths|
      ensures s.items[i].path == paths[i] && s.items[i] == Saved(before, s.items[i].path) && ItemVerified(s, s.items[i])
    {
      assert s.items[i] == Backup(before, paths).items[i] == Saved(before, paths[i]);
      SavedPath(before, paths[i]);
    }
  }

  lemma SavedPath(before: Files, path: string)
    ensures Saved(before, path).path == path
  {
  }

  // A restore of untouched copies brings the managed trees back from these files.
  ghost predicate ComesBack(before: Files, paths: seq<string>, now: Files)
    requires NoRepeats(paths)
  {
    UntouchedVerifies(before, paths);
    var s := Backup(before, paths);
    BroughtBack(before, paths, now, Restored(now, s, |s.items|))
  }

  /** A backup brings every managed tree back, whatever stands there at the restore, exactly if none of them is one that
      another tree is digested like. */
  lemma RestoreIsExact(before: Files, paths: seq<string>)
    requires AllReal(before) && NoRepeats(paths)
    ensures Tellable(before, paths) <==> forall now :: AllReal(now) ==> ComesBack(before, paths, now)
  {
    if Tellable(before, paths) {
      UntouchedVerifies(before, paths);
      forall now | AllReal(now) ensures ComesBack(before, paths, now) {
        BackupRestores(before, paths, now, Backup(before, paths).stored);
      }
    } else {
      var p :| p in paths && p in before && Confusable(before[p]);
      var now := DoubleStays(before, paths, p);
    }
  }

  lemma {:induction false} ModesAreNotDigested(t: Tree, modes: Modes, path: string)
    ensures Bare(ApplyModes(t, modes, path)) == Bare(t)
    ensures ApplyModes(ApplyModes(t, modes, path), modes, path) == ApplyModes(t, modes, path)
    ensures forall at :: Records(ApplyModes(t, modes, path), at) == Records(t, at)
    decreases t
  {
    if t.Dir? { EntryModesAreNotDigested(t.entries, modes, path); }
  }

  lemma {:induction false} EntryModesAreNotDigested(entries: Entries, modes: Modes, dir: string)
    ensures BareEntries(ApplyEntryModes(entries, modes, dir)) == BareEntries(entries)
    ensures ApplyEntryModes(ApplyEntryModes(entries, modes, dir), modes, dir) == ApplyEntryModes(entries, modes, dir)
    ensures forall at :: AllRecords(ApplyEntryModes(entries, modes, dir), at) == AllRecords(entries, at)
    decreases entries
  {
    if entries.Entry? {
      ModesAreNotDigested(entries.tree, modes, dir + "/" + entries.name);
      EntryModesAreNotDigested(entries.rest, modes, dir);
    }
  }

  predicate DigestedAlike(before: Files, fs: Files, path: string) {
    path in before && path in fs && Digest(fs[path]) == Digest(before[path])
  }

  lemma AlikeStaysOnce(before: Files, fs: Files, s: Snapshot, item: Item, path: string)
    requires DigestedAlike(before, fs, path) && item == Saved(before, item.path) && ItemVerified(s, item)
    ensures var after := RestoreItem(fs, s, item);
      DigestedAlike(before, after, path) && Bare(after[path]) == Bare(fs[path])
  {
    if item.path == path { ModesAreNotDigested(fs[path], item.modes, "."); }
  }

  // A tree with the digest of what was backed up at its path stays there.
  lemma {:induction false} AlikeStays(before: Files, paths: seq<string>, fs: Files, s: Snapshot, n: nat, path: string)
    requires n <= |s.items| && DigestedAlike(before, fs, path) && Describes(s, before, paths)
    ensures var after := Restored(fs, s, n); DigestedAlike(before, after, path) && Bare(after[path]) == Bare(fs[path])
  {
    if n > 0 {
      AlikeStays(before, paths, fs, s, n - 1, path);
      AlikeStaysOnce(before, Restored(fs, s, n - 1), s, s.items[n - 1], path);
    }
  }

  lemma DoubleStays(before: Files, paths: seq<string>, path: string) returns (now: Files)
    requires AllReal(before) && NoRepeats(paths)
    requires path in paths && path in before && Confusable(before[path])
    ensures AllReal(now) && !ComesBack(before, paths, now)
  {
    var u := ConfusedWith(before[path], ".");
    now := before[path := u];
    var s := Backup(before, paths);
    UntouchedVerifies(before, paths);
    BackupDescribes(before, paths, s.stored);
    AlikeStays(before, paths, now, s, |s.items|, path);
    assert !Same(before, Restored(now, s, |s.items|), path);
  }

  // Restoring the item changes nothing.
  predicate InPlace(fs: Files, item: Item) {
    if item.present then
      && item.path in fs
      && (Matches(fs, item)
          || (Digest(fs[item.path]) == item.digest && ApplyModes(fs[item.path], item.modes, ".") == fs[item.path]))
    else item.path !in fs
  }

  lemma ItemInPlace(fs: Files, s: Snapshot, item: Item)
    requires ItemVerified(s, item)
    ensures InPlace(RestoreItem(fs, s, item), item) && (InPlace(fs, item) ==> RestoreItem(fs, s, item) == fs)
    ensures forall p :: p != item.path ==> Same(fs, RestoreItem(fs, s, item), p)
  {
    if item.present && !Matches(fs, item) {
      var t := if item.path in fs && Digest(fs[item.path]) == item.digest then fs[item.path] else s.stored[item.path];
      ModesAreNotDigested(t, item.modes, ".");
    }
  }

  lemma {:induction false} AllInPlace(fs: Files, s: Snapshot, n: nat)
    requires n <= |s.items| && forall i :: 0 <= i < |s.items| ==> ItemVerified(s, s.items[i])
    requires forall i, j :: 0 <= i < j < |s.items| ==> s.items[i].path != s.items[j].path
    ensures forall i :: 0 <= i < n ==> InPlace(Restored(fs, s, n), s.items[i])
  {
    if n > 0 {
      var earlier, item := Restored(fs, s, n - 1), s.items[n - 1];
      AllInPlace(fs, s, n - 1);
      ItemInPlace(earlier, s, item);
      forall i | 0 <= i < n - 1 ensures InPlace(Restored(fs, s, n), s.items[i]) {
        assert Same(earlier, Restored(fs, s, n), s.items[i].path);
      }
    }
  }

  lemma {:induction false} NothingToRestore(fs: Files, s: Snapshot, n: nat)
    requires n <= |s.items| && forall i :: 0 <= i < |s.items| ==> ItemVerified(s, s.items[i])
    requires forall i :: 0 <= i < n ==> InPlace(fs, s.items[i])
    ensures Restored(fs, s, n) == fs
  {
    if n > 0 {
      NothingToRestore(fs, s, n - 1);
      ItemInPlace(fs, s, s.items[n - 1]);
    }
  }

  /** Restoring a snapshot that verifies again changes nothing, whatever is in it. */
  lemma RestoreTwice(s: Snapshot, paths: seq<string>, now: Files)
    requires Verified(s, paths)
    ensures var once := Restored(now, s, |s.items|); Restored(once, s, |s.items|) == once
  {
    AllInPlace(now, s, |s.items|);
    NothingToRestore(Restored(now, s, |s.items|), s, |s.items|);
  }

  // The old table with the listed modes set.
  function Overlaid(old_: Modes, modes: Modes): Modes {
    map k | k in old_ :: if k in modes then modes[k] else old_[k]
  }

  lemma {:induction false} ModesSet(t: Tree, modes: Modes, path: string)
    ensures ModesOf(ApplyModes(t, modes, path), path) == Overlaid(ModesOf(t, path), modes)
    decreases t
  {
    if t.Dir? { EntryModesSet(t.entries, modes, path); }
  }

  lemma {:induction false} EntryModesSet(entries: Entries, modes: Modes, dir: string)
    ensures EntryModes(ApplyEntryModes(entries, modes, dir), dir) == Overlaid(EntryModes(entries, dir), modes)
    decreases entries
  {
    if entries.Entry? {
      ModesSet(entries.tree, modes, dir + "/" + entries.name);
      EntryModesSet(entries.rest, modes, dir);
    }
  }

  /** A restored item is exactly what the manifest says, in presence, digest and every mode, unless a tree with its
      digest but other paths stood there. */
  lemma RestoredMatches(fs: Files, s: Snapshot, item: Item)
    requires ItemVerified(s, item)
    ensures Matches(RestoreItem(fs, s, item), item) <==>
              (item.present && item.path in fs && Digest(fs[item.path]) == item.digest ==>
                 ModesOf(fs[item.path], ".").Keys == item.modes.Keys)
  {
    if item.present && !Matches(fs, item) {
      var t := if item.path in fs && Digest(fs[item.path]) == item.digest then fs[item.path] else s.stored[item.path];
      ModesAreNotDigested(t, item.modes, ".");
      ModesSet(t, item.modes, ".");
      var after := ModesOf(ApplyModes(t, item.modes, "."), ".");
      assert after.Keys == ModesOf(t, ".").Keys;
      if after.Keys == item.modes.Keys { assert after == item.modes; }
    }
  }

  /** A snapshot that verifies has an item for every managed path, and its restore touches nothing else. */
  lemma RestoreCovers(s: Snapshot, paths: seq<string>, now: Files, p: string)
    requires Verified(s, paths) && NoRepeats(paths)
    ensures p in paths ==> exists i :: 0 <= i < |s.items| && s.items[i].path == p
    ensures p !in paths ==> Same(now, Restored(now, s, |s.items|), p)
  {
    if p in paths && forall i :: 0 <= i < |s.items| ==> s.items[i].path != p {
      var k :| 0 <= k < |paths| && paths[k] == p;
      TooFew(seq(|s.items|, i requires 0 <= i < |s.items| => s.items[i].path), paths[..k] + paths[k + 1..]);
    }
    if p !in paths { OthersStay(now, s, |s.items|, p); }
  }

  lemma {:induction false} OthersStay(now: Files, s: Snapshot, n: nat, p: string)
    requires n <= |s.items| && forall i :: 0 <= i < |s.items| ==> ItemVerified(s, s.items[i]) && s.items[i].path != p
    ensures Same(now, Restored(now, s, n), p)
  {
    if n > 0 {
      OthersStay(now, s, n - 1, p);
      ItemInPlace(Restored(now, s, n - 1), s, s.items[n - 1]);
    }
  }

  // Distinct texts that are all listed are no more than the list.
  lemma {:induction false} TooFew(texts: seq<string>, listed: seq<string>)
    requires NoRepeats(texts) && forall i :: 0 <= i < |texts| ==> texts[i] in listed
    ensures |texts| <= |listed|
  {
    if texts != [] {
      var n := |texts| - 1;
      var k :| 0 <= k < |listed| && listed[k] == texts[n];
      var rest := listed[..k] + listed[k + 1..];
      forall i | 0 <= i < n ensures texts[..n][i] in rest {
        var j :| 0 <= j < |listed| && listed[j] == texts[i];
        assert rest[if j < k then j else j - 1] == texts[i];
      }
      TooFew(texts[..n], rest);
    }
  }

  /** A restore that leaves the wrong tree: a link "a" to "b:c" was backed up, a link "a:b" to "c" is there now. */
  lemma WrongRestoreExample()
    ensures var t, u := Dir(0, Entry("a:b", Link("c"), End)), Dir(0, Entry("a", Link("b:c"), End));
      var s := Backup(map["etc" := u], ["etc"]);
      Real(t) && Real(u) && Verified(s, ["etc"]) && Restored(map["etc" := t], s, 1) == map["etc" := t]
  {
    var t, u := Dir(0, Entry("a:b", Link("c"), End)), Dir(0, Entry("a", Link("b:c"), End));
    var before, now := map["etc" := u], map["etc" := t];
    ColonExample();
    UntouchedVerifies(before, ["etc"]);
    assert EntryModes(t.entries, ".") == map[] + ModesOf(Link("c"), "." + "/" + "a:b") == map[];
    assert EntryModes(u.entries, ".") == map[] + ModesOf(Link("b:c"), "." + "/" + "a") == map[];
    assert Matches(now, Saved(before, "etc"));
  }

  /** A snapshot whose copies nobody has touched verifies. */
  lemma UntouchedVerifies(before: Files, paths: seq<string>)
    requires NoRepeats(paths)
    ensures Verified(Backup(before, paths), paths)
    ensures forall i :: 0 <= i < |paths| ==> Backup(before, paths).items[i].path == paths[i]
    ensures AllReal(before) ==> AllReal(Backup(before, paths).stored)
    ensures PathsPlain(before) ==> PathsPlain(Backup(before, paths).stored)
  {
    assert forall i :: 0 <= i < |paths| ==> paths[i] in paths;
  }
}
