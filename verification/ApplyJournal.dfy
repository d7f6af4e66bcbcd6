/**
 The recoverable file bundle (app/proxy_apply_state.py).

 A private journal makes a multi-file update recoverable.  Every atomic effect on the disk (an atomic
 rename, an unlink, a journal write) is one step.  A step is followed by a directory sync, so a step
 can fail before its effect or after it, and the whole process can die at either point.  A list of
 verdicts says what happens to each step in turn; the theorems quantify over all of them.
 */
module ApplyJournal {
  import opened Wrappers

  type Path = string

  datatype Meta = Meta(mode: nat, uid: nat, gid: nat)

  // The bytes of a file: the value they spell and how many they are.
  datatype Blob<T> = Blob(value: T, size: nat)

  datatype File<T> = File(data: Blob<T>, meta: Meta)

  type Files<T> = map<Path, File<T>>

  datatype Update<T> = Update(path: Path, data: Blob<T>)

  datatype Entry<T> = Entry(path: Path, before: Option<Blob<T>>, after: Blob<T>, meta: Meta)

  datatype Phase = Prepared | Committed

  datatype Journal<T> = Journal(phase: Phase, entries: seq<Entry<T>>)

  datatype Store<T> = Store(files: Files<T>, journal: Option<Journal<T>>)

  // What happens to one atomic step.  `effect` tells whether the disk changed before the step stopped.
  datatype Verdict = Fine | Stop(effect: bool, crash: bool)

  datatype Outcome<R> = Returned(result: R) | Raised | Crashed

  datatype Recovery = NothingPending | WasCommitted | RolledBack

  // The answer of the service that must accept the staged files before the commit becomes durable.
  datatype Ack = Absent | Answer(accepted: bool) | Throws | DiesInside

  datatype Ran<T, R> = Ran(store: Store<T>, outcome: Outcome<R>, rest: seq<Verdict>)

  datatype Policy = Policy(allowed: set<Path>, limit: nat, uid: nat, gid: nat)

  const PLAIN_BITS: nat := 511  // 0o777
  const NEW_FILE_MODE: nat := 384  // 0o600

  function Head(verdicts: seq<Verdict>): Verdict {
    if verdicts == [] then Fine else verdicts[0]
  }

  function Tail(verdicts: seq<Verdict>): seq<Verdict> {
    if verdicts == [] then [] else verdicts[1..]
  }

  function Halt<R>(crash: bool): Outcome<R> {
    if crash then Crashed else Raised
  }

  predicate TakesEffect(v: Verdict) {
    v.Fine? || v.effect
  }

  function At<T>(files: Files<T>, path: Path): Option<File<T>> {
    if path in files then Some(files[path]) else None
  }

  function Current<T>(files: Files<T>, path: Path): Option<Blob<T>> {
    if path in files then Some(files[path].data) else None
  }

  function Total<T>(entries: seq<Entry<T>>): nat {
    if entries == [] then 0
    else
      var e := entries[|entries| - 1];
      Total(entries[..|entries| - 1]) + e.after.size + (if e.before.Some? then e.before.value.size else 0)
  }

  // The entry that prepare records for one target, as it finds it on disk.
  function Snapshot<T>(policy: Policy, files: Files<T>, u: Update<T>): Entry<T> {
    Entry(u.path, Current(files, u.path), u.data,
          if u.path in files then files[u.path].meta else Meta(NEW_FILE_MODE, policy.uid, policy.gid))
  }

  function Snapshots<T>(policy: Policy, files: Files<T>, updates: seq<Update<T>>): (entries: seq<Entry<T>>)
    ensures |entries| == |updates|
    ensures forall i :: 0 <= i < |updates| ==> entries[i] == Snapshot(policy, files, updates[i])
  {
    seq(|updates|, i requires 0 <= i < |updates| => Snapshot(policy, files, updates[i]))
  }

  predicate Readable<T>(policy: Policy, files: Files<T>, path: Path) {
    path in files ==> files[path].data.size <= policy.limit
  }

  // The refusals of prepare.  The running total never decreases, so testing it at the end is the same.
  predicate Acceptable<T>(policy: Policy, files: Files<T>, updates: seq<Update<T>>) {
    && updates != []
    && (forall i :: 0 <= i < |updates| ==>
          updates[i].path in policy.allowed && Readable(policy, files, updates[i].path))
    && Total(Snapshots(policy, files, updates)) <= policy.limit
  }

  function Prepare<T>(policy: Policy, s: Store<T>, updates: seq<Update<T>>, vs: seq<Verdict>): Ran<T, ()> {
    if s.journal.Some? || !Acceptable(policy, s.files, updates) then Ran(s, Raised, vs)
    else
      var written := s.(journal := Some(Journal(Prepared, Snapshots(policy, s.files, updates))));
      var next := if TakesEffect(Head(vs)) then written else s;
      Ran(next, if Head(vs).Fine? then Returned(()) else Halt(Head(vs).crash), Tail(vs))
  }

  predicate DistinctPaths<T>(entries: seq<Entry<T>>) {
    forall i, j :: 0 <= i < j < |entries| ==> entries[i].path != entries[j].path
  }

  // What _load accepts.
  predicate Loads<T>(policy: Policy, entries: seq<Entry<T>>) {
    && entries != []
    && (forall i :: 0 <= i < |entries| ==> entries[i].path in policy.allowed && entries[i].meta.mode <= PLAIN_BITS)
    && DistinctPaths(entries)
    && Total(entries) <= policy.limit
  }

  predicate Familiar<T(==)>(policy: Policy, files: Files<T>, e: Entry<T>) {
    && Readable(policy, files, e.path)
    && (Current(files, e.path) == e.before || Current(files, e.path) == Some(e.after))
  }

  predicate AllFamiliar<T(==)>(policy: Policy, files: Files<T>, entries: seq<Entry<T>>) {
    forall i :: 0 <= i < |entries| ==> Familiar(policy, files, entries[i])
  }

  function Put<T>(files: Files<T>, e: Entry<T>, undo: bool): Files<T> {
    if undo && e.before.None? then map p | p in files && p != e.path :: files[p]
    else files[e.path := File(if undo then e.before.value else e.after, e.meta)]
  }

  datatype Wrote<T> = Wrote(files: Files<T>, outcome: Outcome<()>, rest: seq<Verdict>)

  function WriteAll<T>(files: Files<T>, entries: seq<Entry<T>>, undo: bool, vs: seq<Verdict>): Wrote<T>
    decreases |entries|
  {
    if entries == [] then Wrote(files, Returned(()), vs)
    else
      var next := if TakesEffect(Head(vs)) then Put(files, entries[0], undo) else files;
      if Head(vs).Fine? then WriteAll(next, entries[1..], undo, Tail(vs))
      else Wrote(next, Halt(Head(vs).crash), Tail(vs))
  }

  // The first half of commit: load, check every target, then write the new contents.
  function Stage<T(==)>(policy: Policy, s: Store<T>, vs: seq<Verdict>): Ran<T, ()> {
    if s.journal.None? || !Loads(policy, s.journal.value.entries) || s.journal.value.phase != Prepared
       || !AllFamiliar(policy, s.files, s.journal.value.entries) then Ran(s, Raised, vs)
    else
      var w := WriteAll(s.files, s.journal.value.entries, false, vs);
      Ran(s.(files := w.files), w.outcome, w.rest)
  }

  function Clear<T, R>(s: Store<T>, result: R, vs: seq<Verdict>): Ran<T, R> {
    var next := if TakesEffect(Head(vs)) then s.(journal := None) else s;
    Ran(next, if Head(vs).Fine? then Returned(result) else Halt(Head(vs).crash), Tail(vs))
  }

  // The second half of commit: make the new phase durable, then drop the journal.
  function Seal<T>(s: Store<T>, vs: seq<Verdict>): Ran<T, ()>
    requires s.journal.Some?
  {
    var sealed := s.(journal := Some(s.journal.value.(phase := Committed)));
    var next := if TakesEffect(Head(vs)) then sealed else s;
    if Head(vs).Fine? then Clear(next, (), Tail(vs))
    else Ran(next, Halt(Head(vs).crash), Tail(vs))
  }

  function Commit<T(==)>(policy: Policy, s: Store<T>, ack: Ack, vs: seq<Verdict>): Ran<T, ()> {
    var staged := Stage(policy, s, vs);
    if !staged.outcome.Returned? then staged
    else if ack == DiesInside then staged.(outcome := Crashed)
    else if ack == Throws || ack == Answer(false) then staged.(outcome := Raised)
    else Seal(staged.store, staged.rest)
  }

  predicate AllNew<T(==)>(files: Files<T>, entries: seq<Entry<T>>) {
    forall i :: 0 <= i < |entries| ==> Current(files, entries[i].path) == Some(entries[i].after)
  }

  function Recover<T(==)>(policy: Policy, s: Store<T>, vs: seq<Verdict>): Ran<T, Recovery> {
    if s.journal.None? then Ran(s, Returned(NothingPending), vs)
    else
      var j := s.journal.value;
      if !Loads(policy, j.entries) || !AllFamiliar(policy, s.files, j.entries) then Ran(s, Raised, vs)
      else if j.phase == Committed then
        if AllNew(s.files, j.entries) then Clear(s, WasCommitted, vs) else Ran(s, Raised, vs)
      else
        var w := WriteAll(s.files, j.entries, true, vs);
        if w.outcome.Returned? then Clear(s.(files := w.files), RolledBack, w.rest)
        else Ran(s.(files := w.files), if w.outcome.Crashed? then Crashed else Raised, w.rest)
  }

  lemma {:induction false} TotalGrows<T>(entries: seq<Entry<T>>, n: nat)
    requires n <= |entries|
    ensures Total(entries[..n]) <= Total(entries)
    decreases |entries| - n
  {
    if n == |entries| {
      assert entries[..n] == entries;
    } else {
      assert entries[..n + 1][..|entries[..n + 1]| - 1] == entries[..n];
      TotalGrows(entries, n + 1);
    }
  }

  // ---------------------------------------------------------------------------------------------
  // What a run of calls does to the disk.

  datatype Call<T> =
    | CallPrepare(updates: seq<Update<T>>, verdicts: seq<Verdict>)
    | CallCommit(ack: Ack, verdicts: seq<Verdict>)
    | CallRecover(verdicts: seq<Verdict>)

  function Step<T(==)>(policy: Policy, s: Store<T>, call: Call<T>): Store<T> {
    match call
    case CallPrepare(updates, vs) => Prepare(policy, s, updates, vs).store
    case CallCommit(ack, vs) => Commit(policy, s, ack, vs).store
    case CallRecover(vs) => Recover(policy, s, vs).store
  }

  function Run<T(==)>(policy: Policy, s: Store<T>, calls: seq<Call<T>>): Store<T> {
    if calls == [] then s
    else Step(policy, Run(policy, s, calls[..|calls| - 1]), calls[|calls| - 1])
  }

  // A commit that gets past the durable phase write.
  predicate Sealed<T(==)>(policy: Policy, s: Store<T>, call: Call<T>) {
    && s.journal.Some? && s.journal.value.phase == Prepared && call.CallCommit?
    && var after := Step(policy, s, call).journal; after.None? || after.value.phase == Committed
  }

  // The whole transactions made durable by a run, in order.
  function Ledger<T(==)>(policy: Policy, s: Store<T>, calls: seq<Call<T>>): seq<seq<Entry<T>>> {
    if calls == [] then []
    else
      var before := Run(policy, s, calls[..|calls| - 1]);
      var earlier := Ledger(policy, s, calls[..|calls| - 1]);
      if Sealed(policy, before, calls[|calls| - 1]) then earlier + [before.journal.value.entries] else earlier
  }

  // The files once every entry has its new contents.
  function Applied<T>(files: Files<T>, entries: seq<Entry<T>>): Files<T> {
    if entries == [] then files
    else
      var e := entries[|entries| - 1];
      Applied(files, entries[..|entries| - 1])[e.path := File(e.after, e.meta)]
  }

  function AllApplied<T>(files: Files<T>, ledger: seq<seq<Entry<T>>>): Files<T> {
    if ledger == [] then files else Applied(AllApplied(files, ledger[..|ledger| - 1]), ledger[|ledger| - 1])
  }

  // The entries record what the settled files held.
  ghost predicate Recorded<T>(base: Files<T>, entries: seq<Entry<T>>) {
    forall i :: 0 <= i < |entries| ==>
      && entries[i].before == Current(base, entries[i].path)
      && (entries[i].path in base ==> entries[i].meta == base[entries[i].path].meta)
  }

  ghost predicate IsNew<T>(files: Files<T>, entries: seq<Entry<T>>, path: Path) {
    exists i :: 0 <= i < |entries| && entries[i].path == path
      && At(files, path) == Some(File(entries[i].after, entries[i].meta))
  }

  // Every path is as it was or holds the new contents of one entry.
  ghost predicate Mixed<T(!new)>(base: Files<T>, files: Files<T>, entries: seq<Entry<T>>) {
    forall p :: At(files, p) == At(base, p) || IsNew(files, entries, p)
  }

  // What every reachable disk satisfies, given the files that recovery would settle on.
  ghost predicate Settling<T(!new)>(policy: Policy, base: Files<T>, s: Store<T>) {
    match s.journal
    case None => s.files == base
    case Some(Journal(Prepared, entries)) =>
      Recorded(base, entries) && Mixed(base, s.files, entries) && (!Loads(policy, entries) ==> s.files == base)
    case Some(Journal(Committed, entries)) =>
      Loads(policy, entries) && s.files == base
      && forall i :: 0 <= i < |entries| ==> At(base, entries[i].path) == Some(File(entries[i].after, entries[i].meta))
  }

  lemma PutKeepsMixed<T(!new)>(base: Files<T>, files: Files<T>, entries: seq<Entry<T>>, i: nat, undo: bool)
    requires i < |entries| && Recorded(base, entries) && Mixed(base, files, entries)
    ensures Mixed(base, Put(files, entries[i], undo), entries)
    ensures At(Put(files, entries[i], undo), entries[i].path) ==
            if undo then At(base, entries[i].path) else Some(File(entries[i].after, entries[i].meta))
  {
  }

  // Whatever the verdicts, writing entries leaves a mixture; if it completes, every written path is done.
  lemma {:induction false} WriteAllEffect<T(!new)>(base: Files<T>, files: Files<T>, entries: seq<Entry<T>>, k: nat,
                                                   undo: bool, vs: seq<Verdict>)
    requires k <= |entries| && DistinctPaths(entries) && Recorded(base, entries) && Mixed(base, files, entries)
    ensures var w := WriteAll(files, entries[k..], undo, vs);
      && Mixed(base, w.files, entries)
      && (forall i :: 0 <= i < k ==> At(w.files, entries[i].path) == At(files, entries[i].path))
      && (w.outcome.Returned? ==>
           forall i :: k <= i < |entries| ==>
             At(w.files, entries[i].path) == if undo then At(base, entries[i].path)
                                             else Some(File(entries[i].after, entries[i].meta)))
    decreases |entries| - k
  {
    if k < |entries| {
      PutKeepsMixed(base, files, entries, k, undo);
      assert entries[k..][0] == entries[k] && entries[k..][1..] == entries[k + 1..];
      var next := if TakesEffect(Head(vs)) then Put(files, entries[k], undo) else files;
      if Head(vs).Fine? { WriteAllEffect(base, next, entries, k + 1, undo, Tail(vs)); }
    }
  }

  lemma {:induction false} AppliedAt<T>(base: Files<T>, entries: seq<Entry<T>>)
    requires DistinctPaths(entries)
    ensures forall i :: 0 <= i < |entries| ==>
              At(Applied(base, entries), entries[i].path) == Some(File(entries[i].after, entries[i].meta))
    ensures forall p :: (forall i :: 0 <= i < |entries| ==> entries[i].path != p) ==>
              At(Applied(base, entries), p) == At(base, p)
  {
    if entries != [] { AppliedAt(base, entries[..|entries| - 1]); }
  }

  lemma SameFiles<T(!new)>(a: Files<T>, b: Files<T>)
    requires forall p :: At(a, p) == At(b, p)
    ensures a == b
  {
    forall p ensures p in a <==> p in b { assert At(a, p) == At(b, p); }
    forall p | p in a ensures a[p] == b[p] { assert At(a, p) == At(b, p); }
  }

  // A write of all new contents that completes yields exactly the applied bundle, and an undo exactly the base.
  lemma CompletedWrite<T(!new)>(base: Files<T>, files: Files<T>, entries: seq<Entry<T>>, undo: bool, vs: seq<Verdict>)
    requires DistinctPaths(entries) && Recorded(base, entries) && Mixed(base, files, entries)
    requires WriteAll(files, entries, undo, vs).outcome.Returned?
    ensures WriteAll(files, entries, undo, vs).files == if undo then base else Applied(base, entries)
  {
    assert entries[0..] == entries;
    WriteAllEffect(base, files, entries, 0, undo, vs);
    AppliedAt(base, entries);
    var done := WriteAll(files, entries, undo, vs).files;
    var goal := if undo then base else Applied(base, entries);
    forall p ensures At(done, p) == At(goal, p) {
      if i :| 0 <= i < |entries| && entries[i].path == p {
      } else {
        assert !IsNew(done, entries, p);
      }
    }
    SameFiles(done, goal);
  }

  lemma AppliedIsAllNew<T(!new)>(policy: Policy, base: Files<T>, entries: seq<Entry<T>>)
    requires Loads(policy, entries) && Recorded(base, entries)
    ensures forall i :: 0 <= i < |entries| ==>
              At(Applied(base, entries), entries[i].path) == Some(File(entries[i].after, entries[i].meta))
  {
  }

  // One call keeps the disk settling, on the same files or, when it seals, on the applied bundle.
  lemma StepSettles<T(!new)>(policy: Policy, base: Files<T>, s: Store<T>, call: Call<T>)
    requires Settling(policy, base, s)
    ensures Settling(policy, if Sealed(policy, s, call) then Applied(base, s.journal.value.entries) else base,
                     Step(policy, s, call))
  {
    match call
    case CallPrepare(updates, vs) =>
      if s.journal.None? { PrepareMixes(policy, s, updates); }
    case CallCommit(ack, vs) =>
      CommitSettles(policy, base, s, ack, vs);
    case CallRecover(vs) =>
      RecoverSettles(policy, base, s, vs);
  }

  lemma PrepareMixes<T(!new)>(policy: Policy, s: Store<T>, updates: seq<Update<T>>)
    ensures Recorded(s.files, Snapshots(policy, s.files, updates))
    ensures Mixed(s.files, s.files, Snapshots(policy, s.files, updates))
  {
  }

  lemma StageSettles<T(!new)>(policy: Policy, base: Files<T>, s: Store<T>, vs: seq<Verdict>)
    requires Settling(policy, base, s)
    ensures var staged := Stage(policy, s, vs);
      && Settling(policy, base, staged.store)
      && staged.store.journal == s.journal
      && (staged.outcome.Returned? ==>
           && s.journal.Some? && s.journal.value.phase == Prepared && Loads(policy, s.journal.value.entries)
           && staged.store.files == Applied(base, s.journal.value.entries))
  {
    if s.journal.Some? && s.journal.value.phase == Prepared && Loads(policy, s.journal.value.entries) {
      var entries := s.journal.value.entries;
      assert entries[0..] == entries;
      WriteAllEffect(base, s.files, entries, 0, false, vs);
      if WriteAll(s.files, entries, false, vs).outcome.Returned? {
        CompletedWrite(base, s.files, entries, false, vs);
      }
    }
  }

  lemma SealSettles<T(!new)>(policy: Policy, base: Files<T>, s: Store<T>, vs: seq<Verdict>)
    requires s.journal.Some? && s.journal.value.phase == Prepared && Loads(policy, s.journal.value.entries)
    requires Recorded(base, s.journal.value.entries) && s.files == Applied(base, s.journal.value.entries)
    ensures var after := Seal(s, vs).store;
      after == s
      || ((after.journal.None? || after.journal.value.phase == Committed) && Settling(policy, s.files, after))
  {
    AppliedIsAllNew(policy, base, s.journal.value.entries);
  }

  lemma CommitSettles<T(!new)>(policy: Policy, base: Files<T>, s: Store<T>, ack: Ack, vs: seq<Verdict>)
    requires Settling(policy, base, s)
    ensures var call := CallCommit(ack, vs);
      Settling(policy, if Sealed(policy, s, call) then Applied(base, s.journal.value.entries) else base,
               Step(policy, s, call))
  {
    StageSettles(policy, base, s, vs);
    var staged := Stage(policy, s, vs);
    var after := Commit(policy, s, ack, vs).store;
    if staged.outcome.Returned? && ack != DiesInside && ack != Throws && ack != Answer(false) {
      SealSettles(policy, base, staged.store, staged.rest);
      assert after == Seal(staged.store, staged.rest).store;
    } else {
      assert after == staged.store;
    }
  }

  lemma RecoverSettles<T(!new)>(policy: Policy, base: Files<T>, s: Store<T>, vs: seq<Verdict>)
    requires Settling(policy, base, s)
    ensures Settling(policy, base, Recover(policy, s, vs).store)
    ensures Recover(policy, s, vs).outcome.Returned? ==>
      && Recover(policy, s, vs).store == Store(base, None)
      && Recover(policy, s, vs).outcome.result == match s.journal
                                                  case None => NothingPending
                                                  case Some(j) => if j.phase == Committed then WasCommitted
                                                                  else RolledBack
  {
    if s.journal.Some? && s.journal.value.phase == Prepared && Loads(policy, s.journal.value.entries) {
      var entries := s.journal.value.entries;
      assert entries[0..] == entries;
      WriteAllEffect(base, s.files, entries, 0, true, vs);
      if WriteAll(s.files, entries, true, vs).outcome.Returned? {
        CompletedWrite(base, s.files, entries, true, vs);
      }
    }
  }

  /** Every disk that a run can reach, with any step failing or dying at any point of any call, settles on
      the initial files with exactly the sealed transactions applied, each of them whole and in order. */
  lemma {:induction false} EveryRunSettles<T(!new)>(policy: Policy, files: Files<T>, calls: seq<Call<T>>)
    ensures Settling(policy, AllApplied(files, Ledger(policy, Store(files, None), calls)),
                     Run(policy, Store(files, None), calls))
  {
    if calls != [] {
      var s := Store(files, None);
      var earlier := calls[..|calls| - 1];
      EveryRunSettles(policy, files, earlier);
      var before := Run(policy, s, earlier);
      StepSettles(policy, AllApplied(files, Ledger(policy, s, earlier)), before, calls[|calls| - 1]);
      if Sealed(policy, before, calls[|calls| - 1]) {
        var ledger := Ledger(policy, s, calls);
        assert ledger[..|ledger| - 1] == Ledger(policy, s, earlier);
      }
    }
  }

  ghost predicate NoPrepare<T>(calls: seq<Call<T>>) {
    forall i :: 0 <= i < |calls| ==> !calls[i].CallPrepare?
  }

  // The journal is still the one at the start, and the ledger is empty until it is sealed.
  ghost predicate OneJournal<T>(s: Store<T>, after: Store<T>, ledger: seq<seq<Entry<T>>>) {
    && (after.journal.Some? ==> s.journal.Some? && after.journal.value.entries == s.journal.value.entries)
    && (ledger != [] ==> s.journal.Some? && ledger == [s.journal.value.entries]
                         && (after.journal.Some? ==> after.journal.value.phase == Committed))
  }

  lemma StepKeepsOneJournal<T(!new)>(policy: Policy, s: Store<T>, before: Store<T>, ledger: seq<seq<Entry<T>>>,
                                     call: Call<T>)
    requires OneJournal(s, before, ledger) && !call.CallPrepare?
    ensures OneJournal(s, Step(policy, before, call),
                       if Sealed(policy, before, call) then ledger + [before.journal.value.entries] else ledger)
  {
  }

  // A journal seals at most once.
  lemma {:induction false} SealsOnce<T(!new)>(policy: Policy, s: Store<T>, calls: seq<Call<T>>)
    requires NoPrepare(calls)
    requires s.journal.Some? ==> s.journal.value.phase == Prepared
    ensures OneJournal(s, Run(policy, s, calls), Ledger(policy, s, calls))
  {
    if calls != [] {
      var earlier, last := calls[..|calls| - 1], calls[|calls| - 1];
      SealsOnce(policy, s, earlier);
      StepKeepsOneJournal(policy, s, Run(policy, s, earlier), Ledger(policy, s, earlier), last);
    }
  }

  /** One transaction: after a prepare and any commits and recoveries that fail or die at any step, the first
      recovery that completes leaves all files old or all files new; new exactly when the run sealed it. */
  lemma FirstCompletedRecovery<T(!new)>(policy: Policy, files: Files<T>, updates: seq<Update<T>>, calls: seq<Call<T>>,
                                        vs: seq<Verdict>)
    requires NoPrepare(calls) && Acceptable(policy, files, updates)
    ensures var entries := Snapshots(policy, files, updates);
      var prepared := Store(files, Some(Journal(Prepared, entries)));
      var reached := Run(policy, prepared, calls);
      var r := Recover(policy, reached, vs);
      var ledger := Ledger(policy, prepared, calls);
      && (ledger == [] || ledger == [entries])
      && (r.outcome.Returned? ==> r.store == Store(if ledger == [] then files else Applied(files, entries), None))
  {
    var entries := Snapshots(policy, files, updates);
    var prepared := Store(files, Some(Journal(Prepared, entries)));
    var call := CallPrepare(updates, []);
    var all := [call] + calls;
    SealsOnce(policy, prepared, calls);
    RunAfter(policy, Store(files, None), call, calls);
    EveryRunSettles(policy, files, all);
    var ledger := Ledger(policy, prepared, calls);
    if ledger == [entries] {
      assert ledger[..|ledger| - 1] == [];
      assert AllApplied(files, ledger) == Applied(AllApplied(files, []), entries);
    }
    assert Step(policy, Store(files, None), call) == prepared;
    RecoverSettles(policy, AllApplied(files, ledger), Run(policy, prepared, calls), vs);
  }

  lemma {:induction false} RunAfter<T(!new)>(policy: Policy, s: Store<T>, first: Call<T>, calls: seq<Call<T>>)
    requires !Sealed(policy, s, first)
    ensures Run(policy, s, [first] + calls) == Run(policy, Step(policy, s, first), calls)
    ensures Ledger(policy, s, [first] + calls) == Ledger(policy, Step(policy, s, first), calls)
  {
    var all := [first] + calls;
    if calls == [] {
      assert all[..|all| - 1] == [];
    } else {
      assert all[..|all| - 1] == [first] + calls[..|calls| - 1];
      RunAfter(policy, s, first, calls[..|calls| - 1]);
    }
  }

  lemma {:induction false} TotalCovers<T>(entries: seq<Entry<T>>, i: nat)
    requires i < |entries|
    ensures entries[i].after.size <= Total(entries)
    ensures entries[i].before.Some? ==> entries[i].before.value.size <= Total(entries)
  {
    if i < |entries| - 1 { TotalCovers(entries[..|entries| - 1], i); }
  }

  lemma SettlingIsFamiliar<T(!new)>(policy: Policy, base: Files<T>, s: Store<T>)
    requires Settling(policy, base, s) && s.journal.Some? && Loads(policy, s.journal.value.entries)
    ensures AllFamiliar(policy, s.files, s.journal.value.entries)
  {
    var entries := s.journal.value.entries;
    forall i | 0 <= i < |entries| ensures Familiar(policy, s.files, entries[i]) {
      TotalCovers(entries, i);
      var p := entries[i].path;
      assert At(s.files, p) == At(base, p) || IsNew(s.files, entries, p);
      assert s.journal.value.phase == Committed ==> At(base, p) == Some(File(entries[i].after, entries[i].meta));
    }
  }

  lemma {:induction false} UndisturbedWrite<T>(files: Files<T>, entries: seq<Entry<T>>, undo: bool)
    ensures WriteAll(files, entries, undo, []).outcome == Returned(()) && WriteAll(files, entries, undo, []).rest == []
    decreases |entries|
  {
    if entries != [] { UndisturbedWrite(Put(files, entries[0], undo), entries[1..], undo); }
  }

  /** A commit that meets no fault and no refusal completes, on every reachable disk whose prepared journal loads. */
  lemma UndisturbedCommit<T(!new)>(policy: Policy, base: Files<T>, s: Store<T>, ack: Ack)
    requires Settling(policy, base, s) && s.journal.Some? && s.journal.value.phase == Prepared
    requires Loads(policy, s.journal.value.entries) && ack in {Absent, Answer(true)}
    ensures Commit(policy, s, ack, []).outcome == Returned(()) && Commit(policy, s, ack, []).rest == []
  {
    SettlingIsFamiliar(policy, base, s);
    UndisturbedWrite(s.files, s.journal.value.entries, false);
  }

  /** A recovery that meets no fault completes, on every reachable disk whose journal loads. */
  lemma UndisturbedRecovery<T(!new)>(policy: Policy, base: Files<T>, s: Store<T>)
    requires Settling(policy, base, s) && (s.journal.Some? ==> Loads(policy, s.journal.value.entries))
    ensures Recover(policy, s, []).outcome.Returned? && Recover(policy, s, []).store == Store(base, None)
  {
    if s.journal.Some? {
      var entries := s.journal.value.entries;
      SettlingIsFamiliar(policy, base, s);
      UndisturbedWrite(s.files, entries, true);
      if s.journal.value.phase == Committed {
        forall i | 0 <= i < |entries| ensures Current(s.files, entries[i].path) == Some(entries[i].after) {
          assert At(base, entries[i].path) == Some(File(entries[i].after, entries[i].meta));
        }
      }
    }
    RecoverSettles(policy, base, s, []);
  }

  /** Prepare writes a journal that loads exactly when every existing target has plain permission bits
      and no path is named twice; prepare itself checks neither. */
  lemma PreparedJournalLoads<T(!new)>(policy: Policy, files: Files<T>, updates: seq<Update<T>>)
    requires Acceptable(policy, files, updates)
    ensures Loads(policy, Snapshots(policy, files, updates)) <==>
      && (forall i :: 0 <= i < |updates| && updates[i].path in files ==> files[updates[i].path].meta.mode <= PLAIN_BITS)
      && (forall i, j :: 0 <= i < j < |updates| ==> updates[i].path != updates[j].path)
  {
  }

  /** A path named twice: prepare succeeds, and neither a commit nor a recovery ever gets past the journal. */
  lemma RepeatedPathExample()
    ensures var policy := Policy({"key"}, 10, 0, 0);
      var p := Prepare<int>(policy, Store(map[], None), [Update("key", Blob(1, 1)), Update("key", Blob(2, 1))], []);
      p.outcome.Returned? && Commit(policy, p.store, Absent, []).outcome.Raised?
      && Recover(policy, p.store, []).outcome.Raised?
  {
    var policy := Policy({"key"}, 10, 0, 0);
    var updates: seq<Update<int>> := [Update("key", Blob(1, 1)), Update("key", Blob(2, 1))];
    var entries := Snapshots(policy, map[], updates);
    var first: seq<Entry<int>> := entries[..1];
    assert first == [entries[0]] && first[..0] == [];
    assert Total(first) == 1;
    assert Total(entries) == Total(first) + 1;
    PreparedJournalLoads(policy, map[], updates);
    assert updates[0].path == updates[1].path;
  }

  // Somebody else has changed the target: it holds neither what it held at the prepare nor the new contents.
  predicate ChangedOutside<T(==)>(files: Files<T>, e: Entry<T>) {
    if e.path in files then e.before != Some(files[e.path].data) && files[e.path].data != e.after else e.before.Some?
  }

  // A journal that does not load, a target that is too large or was changed outside the transaction, or, behind a
  // durable commit, a target that does not hold the new contents.
  ghost predicate Refused<T>(policy: Policy, s: Store<T>)
    requires s.journal.Some?
  {
    var entries := s.journal.value.entries;
    || !Loads(policy, entries)
    || (exists i :: 0 <= i < |entries| && ChangedOutside(s.files, entries[i]))
    || (exists i :: 0 <= i < |entries| && entries[i].path in s.files
                    && s.files[entries[i].path].data.size > policy.limit)
    || (s.journal.value.phase == Committed
        && exists i :: 0 <= i < |entries| && !Holds(s.files, entries[i].path, entries[i].after))
  }

  predicate Holds<T(==)>(files: Files<T>, path: Path, data: Blob<T>) {
    path in files && files[path].data == data
  }

  lemma FamiliarMeans<T>(policy: Policy, files: Files<T>, e: Entry<T>)
    ensures Familiar(policy, files, e) <==>
              !ChangedOutside(files, e) && (e.path in files ==> files[e.path].data.size <= policy.limit)
    ensures Holds(files, e.path, e.after) <==> Current(files, e.path) == Some(e.after)
  {
  }

  lemma RefusedOnce<T>(policy: Policy, s: Store<T>, call: Call<T>)
    requires s.journal.Some? && Refused(policy, s)
    ensures Step(policy, s, call) == s
    ensures forall vs :: Recover(policy, s, vs).outcome.Raised?
    ensures forall ack, vs :: Commit(policy, s, ack, vs).outcome.Raised?
    ensures forall updates, vs :: Prepare(policy, s, updates, vs).outcome.Raised?
  {
    var entries := s.journal.value.entries;
    forall i | 0 <= i < |entries|
      ensures ChangedOutside(s.files, entries[i]) ==> !Familiar(policy, s.files, entries[i])
      ensures (entries[i].path in s.files && s.files[entries[i].path].data.size > policy.limit) ==>
                !Familiar(policy, s.files, entries[i])
      ensures !Holds(s.files, entries[i].path, entries[i].after) ==> !AllNew(s.files, entries)
    {
      FamiliarMeans(policy, s.files, entries[i]);
    }
  }

  /** A journal that does not load, or any target with foreign contents, stops every later call: nothing is
      written, the journal stays, and each commit, recovery and prepare raises. */
  lemma {:induction false} RefusedForGood<T(!new)>(policy: Policy, s: Store<T>, calls: seq<Call<T>>)
    requires s.journal.Some? && Refused(policy, s)
    ensures Run(policy, s, calls) == s
    ensures forall vs :: Recover(policy, s, vs).outcome.Raised?
    ensures forall ack, vs :: Commit(policy, s, ack, vs).outcome.Raised?
    ensures forall updates, vs :: Prepare(policy, s, updates, vs).outcome.Raised?
  {
    RefusedOnce(policy, s, CallRecover([]));
    if calls != [] {
      RefusedForGood(policy, s, calls[..|calls| - 1]);
      RefusedOnce(policy, s, calls[|calls| - 1]);
    }
  }

  /** Nothing else is refused: a journal that loads and whose targets all hold old or new contents of allowed size is
      rolled back, committed if a service accepts, or, once durable and all new, completed. */
  lemma OthersAreServed<T(!new)>(policy: Policy, s: Store<T>)
    requires s.journal.Some? && !Refused(policy, s)
    ensures var phase := s.journal.value.phase; var r := Recover(policy, s, []);
      && r.outcome == Returned(if phase == Committed then WasCommitted else RolledBack) && r.store.journal.None?
      && (phase == Prepared ==> forall ack :: ack in {Absent, Answer(true)} ==>
            Commit(policy, s, ack, []).outcome == Returned(()) && Commit(policy, s, ack, []).store.journal.None?)
  {
    var entries := s.journal.value.entries;
    forall i | 0 <= i < |entries|
      ensures Familiar(policy, s.files, entries[i])
      ensures s.journal.value.phase == Committed ==> Current(s.files, entries[i].path) == Some(entries[i].after)
    {
      FamiliarMeans(policy, s.files, entries[i]);
    }
    UndisturbedWrite(s.files, entries, true);
    UndisturbedWrite(s.files, entries, false);
  }

  lemma {:induction false} WritesTargetsOnly<T>(files: Files<T>, entries: seq<Entry<T>>, undo: bool, vs: seq<Verdict>,
                                                path: Path)
    requires forall i :: 0 <= i < |entries| ==> entries[i].path != path
    ensures At(WriteAll(files, entries, undo, vs).files, path) == At(files, path)
    decreases |entries|
  {
    if entries != [] {
      var next := if TakesEffect(Head(vs)) then Put(files, entries[0], undo) else files;
      WritesTargetsOnly(next, entries[1..], undo, Tail(vs), path);
    }
  }

  lemma StepWritesAllowed<T>(policy: Policy, s: Store<T>, call: Call<T>, path: Path)
    requires path !in policy.allowed
    ensures At(Step(policy, s, call).files, path) == At(s.files, path)
  {
    if s.journal.Some? && Loads(policy, s.journal.value.entries) {
      var entries := s.journal.value.entries;
      match call
      case CallPrepare(_, _) =>
      case CallCommit(_, vs) => WritesTargetsOnly(s.files, entries, false, vs, path);
      case CallRecover(vs) => WritesTargetsOnly(s.files, entries, true, vs, path);
    }
  }

  /** Whatever journal lies there and whatever is called, no path outside the allowed ones is written. */
  lemma {:induction false} WritesAllowedOnly<T>(policy: Policy, s: Store<T>, calls: seq<Call<T>>, path: Path)
    requires path !in policy.allowed
    ensures At(Run(policy, s, calls).files, path) == At(s.files, path)
  {
    if calls != [] {
      WritesAllowedOnly(policy, s, calls[..|calls| - 1], path);
      StepWritesAllowed(policy, Run(policy, s, calls[..|calls| - 1]), calls[|calls| - 1], path);
    }
  }

  /** Once all files are staged and the service accepts, the durable phase decides: if its write took effect, whatever
      becomes of the rest, the next recovery leaves all files new, and if not, all old. */
  lemma PhaseWriteDecides<T(!new)>(policy: Policy, base: Files<T>, s: Store<T>, ack: Ack, vs: seq<Verdict>)
    requires Settling(policy, base, s) && s.journal.Some? && Stage(policy, s, vs).outcome.Returned?
    requires ack in {Absent, Answer(true)}
    ensures var write := Head(Stage(policy, s, vs).rest);
      var r := Recover(policy, Commit(policy, s, ack, vs).store, []);
      && r.outcome.Returned? && r.store.journal == None
      && r.store.files == if write == Fine || write.effect then Applied(base, s.journal.value.entries) else base
  {
    var staged := Stage(policy, s, vs);
    var after := Commit(policy, s, ack, vs).store;
    var applied := Applied(base, s.journal.value.entries);
    StageSettles(policy, base, s, vs);
    SealSettles(policy, base, staged.store, staged.rest);
    if Head(staged.rest) == Fine || Head(staged.rest).effect {
      assert after.journal.None? || after.journal.value.phase == Committed;
      UndisturbedRecovery(policy, applied, after);
    } else {
      assert after == staged.store;
      UndisturbedRecovery(policy, base, after);
    }
  }

  /** A service that refuses or raises leaves the staged files and the journal to a recovery, and the commit raises; one
      that takes the process with it leaves the same. */
  lemma ServiceRefuses<T>(policy: Policy, s: Store<T>, ack: Ack, vs: seq<Verdict>)
    requires Stage(policy, s, vs).outcome.Returned? && ack !in {Absent, Answer(true)}
    ensures var r := Commit(policy, s, ack, vs);
      && r.store.journal == s.journal && (r.outcome.Crashed? <==> ack == DiesInside)
      && (r.outcome.Raised? <==> ack == Throws || ack == Answer(false))
  {
  }

  /** A prepare without faults succeeds exactly if nothing is pending and the bundle is listed, readable and of allowed
      size, and then records for every target what it holds and what it is to hold; otherwise it changes nothing. */
  lemma PrepareExactly<T>(policy: Policy, s: Store<T>, updates: seq<Update<T>>)
    ensures var r := Prepare(policy, s, updates, []);
      && (r.outcome.Returned? <==>
            && s.journal.None? && updates != []
            && (forall i :: 0 <= i < |updates| ==> updates[i].path in policy.allowed)
            && (forall i :: 0 <= i < |updates| && updates[i].path in s.files ==>
                  s.files[updates[i].path].data.size <= policy.limit)
            && Total(Snapshots(policy, s.files, updates)) <= policy.limit)
      && (!r.outcome.Returned? ==> r.store == s)
      && (r.outcome.Returned? ==> r.store.files == s.files && r.store.journal.Some?
                                  && Notes(s.files, updates, r.store.journal.value))
  {
  }

  predicate Notes<T(==)>(files: Files<T>, updates: seq<Update<T>>, j: Journal<T>) {
    && j.phase == Prepared && |j.entries| == |updates|
    && forall i :: 0 <= i < |updates| ==>
         && j.entries[i].path == updates[i].path && j.entries[i].after == updates[i].data
         && (updates[i].path in files ==> j.entries[i].before == Some(files[updates[i].path].data)
                                          && j.entries[i].meta == files[updates[i].path].meta)
         && (updates[i].path !in files ==> j.entries[i].before == None && j.entries[i].meta.mode == 0x180)
  }

  /** A call whose first step fails before its effect changes nothing. */
  lemma FailedStepChangesNothing<T>(policy: Policy, s: Store<T>, call: Call<T>, crash: bool, rest: seq<Verdict>)
    requires call.verdicts == [Stop(false, crash)] + rest
    ensures Step(policy, s, call) == s
  {
    match call
    case CallPrepare(_, _) =>
    case CallCommit(_, vs) =>
      if s.journal.Some? { FailedWrite(s.files, s.journal.value.entries, false, vs); }
    case CallRecover(vs) =>
      if s.journal.Some? { FailedWrite(s.files, s.journal.value.entries, true, vs); }
  }

  lemma FailedWrite<T>(files: Files<T>, entries: seq<Entry<T>>, undo: bool, vs: seq<Verdict>)
    requires vs != [] && vs[0].Stop? && !vs[0].effect
    ensures WriteAll(files, entries, undo, vs).files == files
    ensures entries != [] ==> !WriteAll(files, entries, undo, vs).outcome.Returned?
  {
  }

  // The journal is unlinked but the sync of its directory fails.
  predicate ClearLost<T(==)>(policy: Policy, s: Store<T>, ack: Ack, vs: seq<Verdict>) {
    var staged := Stage(policy, s, vs);
    && staged.outcome.Returned? && (ack == Absent || ack == Answer(true))
    && Head(staged.rest) == Fine && Head(Tail(staged.rest)) == Stop(true, false)
  }

  /** What a recovery means after a commit that raised.  "Anything but committed was rolled back" is right
      exactly when the commit did not lose the journal at its last sync (or there was nothing to change). */
  lemma RecoveryAfterFailedCommit<T(!new)>(policy: Policy, base: Files<T>, s: Store<T>, ack: Ack, vs: seq<Verdict>)
    requires Settling(policy, base, s)
    requires s.journal.Some? && s.journal.value.phase == Prepared && Loads(policy, s.journal.value.entries)
    requires Commit(policy, s, ack, vs).outcome.Raised?
    ensures var r := Recover(policy, Commit(policy, s, ack, vs).store, []);
      var applied := Applied(base, s.journal.value.entries);
      && r.outcome.Returned?
      && (r.outcome.result == NothingPending <==> ClearLost(policy, s, ack, vs))
      && r.store.files == (if r.outcome.result == RolledBack then base else applied)
      && ((r.outcome.result != WasCommitted ==> r.store.files == base) <==>
            (!ClearLost(policy, s, ack, vs) || applied == base))
  {
    var after := Commit(policy, s, ack, vs).store;
    var call := CallCommit(ack, vs);
    CommitSettles(policy, base, s, ack, vs);
    var settled := if Sealed(policy, s, call) then Applied(base, s.journal.value.entries) else base;
    UndisturbedRecovery(policy, settled, after);
    RecoverSettles(policy, settled, after, []);
  }

  // A concrete case: one key file, three steps that succeed, and a sync that fails after the unlink.
  lemma LostClearExample()
    ensures var policy := Policy({"key"}, 10, 0, 0);
      var base: Files<int> := map["key" := File(Blob(1, 1), Meta(384, 0, 0))];
      var s := Prepare(policy, Store(base, None), [Update("key", Blob(2, 1))], []).store;
      var c := Commit(policy, s, Absent, [Fine, Fine, Stop(true, false)]);
      && c.outcome.Raised?
      && Recover(policy, c.store, []).outcome == Returned(NothingPending)
      && Recover(policy, c.store, []).store.files["key"].data == Blob(2, 1)
  {
  }
}
