/**
 The file bundle as the executor uses it: an object whose methods change the disk step by step.
 Each method is proved against the function of the same name in ApplyJournal.
 */
module ApplyState {
  import opened Wrappers
  import opened Spec = ApplyJournal

  class ApplyFileBundle<T(==)> {
    const policy: Policy
    var files: Files<T>
    var journal: Option<Journal<T>>
    var verdicts: seq<Verdict>

    ghost function Contents(): Store<T>
      reads this
    {
      Store(files, journal)
    }

    constructor (policy: Policy, files: Files<T>, journal: Option<Journal<T>>, verdicts: seq<Verdict>)
      ensures this.policy == policy && Contents() == Store(files, journal) && this.verdicts == verdicts
    {
      this.policy, this.files, this.journal, this.verdicts := policy, files, journal, verdicts;
    }

    method Pending() returns (pending: bool)
      ensures pending == journal.Some?
    {
      pending := journal.Some?;
    }

    method NextVerdict() returns (v: Verdict)
      modifies this`verdicts
      ensures v == Head(old(verdicts)) && verdicts == Tail(old(verdicts))
    {
      v := if verdicts == [] then Fine else verdicts[0];
      verdicts := if verdicts == [] then [] else verdicts[1..];
    }

    method WriteJournal(next: Option<Journal<T>>) returns (outcome: Outcome<()>)
      modifies this`journal, this`verdicts
      ensures journal == (if TakesEffect(Head(old(verdicts))) then next else old(journal))
      ensures verdicts == Tail(old(verdicts))
      ensures outcome == (if Head(old(verdicts)).Fine? then Returned(()) else Halt(Head(old(verdicts)).crash))
    {
      var v := NextVerdict();
      if v.Fine? || v.effect { journal := next; }
      outcome := if v.Fine? then Returned(()) else Halt(v.crash);
    }

    method Prepare(updates: seq<Update<T>>) returns (outcome: Outcome<()>)
      modifies this
      ensures Ran(Contents(), outcome, verdicts) == Spec.Prepare(policy, old(Contents()), updates, old(verdicts))
    {
      if journal.Some? { return Raised; }
      var entries: seq<Entry<T>> := [];
      var total := 0;
      var i := 0;
      while i < |updates|
        invariant 0 <= i <= |updates|
        invariant entries == Snapshots(policy, files, updates)[..i]
        invariant total == Total(entries) <= policy.limit
        invariant forall k :: 0 <= k < i ==>
                  updates[k].path in policy.allowed && Readable(policy, files, updates[k].path)
      {
        var u := updates[i];
        var e := Snapshot(policy, files, u);
        var all := Snapshots(policy, files, updates);
        assert all[..i + 1] == entries + [e];
        assert (entries + [e])[..|entries + [e]| - 1] == entries;
        if u.path !in policy.allowed { return Raised; }
        if !Readable(policy, files, u.path) { return Raised; }
        total := total + u.data.size + (if e.before.Some? then e.before.value.size else 0);
        entries := entries + [e];
        if total > policy.limit {
          TotalGrows(all, i + 1);
          return Raised;
        }
        i := i + 1;
      }
      assert entries == Snapshots(policy, files, updates);
      if entries == [] { return Raised; }
      outcome := WriteJournal(Some(Journal(Prepared, entries)));
    }

    method WriteEntries(undo: bool) returns (outcome: Outcome<()>)
      requires journal.Some?
      modifies this`files, this`verdicts
      ensures Wrote(files, outcome, verdicts) == WriteAll(old(files), journal.value.entries, undo, old(verdicts))
    {
      var entries := journal.value.entries;
      var i := 0;
      while i < |entries|
        invariant 0 <= i <= |entries|
        invariant WriteAll(old(files), entries, undo, old(verdicts)) == WriteAll(files, entries[i..], undo, verdicts)
      {
        assert entries[i..][1..] == entries[i + 1..];
        var v := NextVerdict();
        if v.Fine? || v.effect { files := Put(files, entries[i], undo); }
        if !v.Fine? { return Halt(v.crash); }
        i := i + 1;
      }
      outcome := Returned(());
    }

    method Check() returns (ok: bool)
      requires journal.Some?
      ensures ok == AllFamiliar(policy, files, journal.value.entries)
    {
      var entries := journal.value.entries;
      var i := 0;
      while i < |entries|
        invariant 0 <= i <= |entries|
        invariant forall k :: 0 <= k < i ==> Familiar(policy, files, entries[k])
      {
        if !Familiar(policy, files, entries[i]) { return false; }
        i := i + 1;
      }
      ok := true;
    }

    method Stage() returns (outcome: Outcome<()>)
      modifies this`files, this`verdicts
      ensures Ran(Contents(), outcome, verdicts) == Spec.Stage(policy, old(Contents()), old(verdicts))
    {
      if journal.None? || !Loads(policy, journal.value.entries) || journal.value.phase != Prepared { return Raised; }
      var ok := Check();
      if !ok { return Raised; }
      outcome := WriteEntries(false);
    }

    method Seal() returns (outcome: Outcome<()>)
      requires journal.Some?
      modifies this`journal, this`verdicts
      ensures Ran(Contents(), outcome, verdicts) == Spec.Seal(old(Contents()), old(verdicts))
    {
      outcome := WriteJournal(Some(journal.value.(phase := Committed)));
      if outcome.Returned? { outcome := WriteJournal(None); }
    }

    method Commit(ack: Ack) returns (outcome: Outcome<()>)
      modifies this
      ensures Ran(Contents(), outcome, verdicts) == Spec.Commit(policy, old(Contents()), ack, old(verdicts))
    {
      outcome := Stage();
      if !outcome.Returned? { return; }
      if ack == DiesInside { return Crashed; }
      if ack == Throws || ack == Answer(false) { return Raised; }
      outcome := Seal();
    }

    method Recover() returns (outcome: Outcome<Recovery>)
      modifies this
      ensures Ran(Contents(), outcome, verdicts) == Spec.Recover(policy, old(Contents()), old(verdicts))
    {
      if journal.None? { return Returned(NothingPending); }
      if !Loads(policy, journal.value.entries) { return Raised; }
      var ok := Check();
      if !ok { return Raised; }
      var result := RolledBack;
      if journal.value.phase == Committed {
        var entries := journal.value.entries;
        var i := 0;
        while i < |entries|
          invariant 0 <= i <= |entries|
          invariant forall k :: 0 <= k < i ==> Current(files, entries[k].path) == Some(entries[k].after)
        {
          if Current(files, entries[i].path) != Some(entries[i].after) { return Raised; }
          i := i + 1;
        }
        result := WasCommitted;
      } else {
        var written := WriteEntries(true);
        if written.Crashed? { return Crashed; }
        if written.Raised? { return Raised; }
      }
      var cleared := WriteJournal(None);
      outcome := match cleared case Returned(_) => Returned(result) case Raised => Raised case Crashed => Crashed;
    }
  }
}
