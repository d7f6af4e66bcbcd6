/**
 When the Telegram failover may switch at all (app/auto_failover_runtime.py:112-334): a failed check must be
 confirmed again and again, each time after the grace period, and any sign of life starts the count anew.
 */
module FailoverTrigger {
  import opened Wrappers

  // The state dictionary; 0.0 stands for "no failure" and "no attempt" as it does there.
  datatype State = State(lastFail: real, failures: nat, lastAttempt: real, inProgress: bool, forced: bool)

  // What one call finds: the clock and the settings, then the answers in the order they are asked for.
  datatype Call = Call(now: real, grace: real, cooldown: real, minFailures: int, keyChanged: bool, poolBusy: bool,
                       recentSuccess: bool, startupHold: bool, first: Option<bool>, excused: bool,
                       confirm: Option<bool>, deferred: bool)

  datatype Answer = Refused | Quiet | Alive | Unknown | FirstFailure | Confirmed(switches: bool)

  datatype Reaction = Reaction(state: State, answer: Answer)

  const CALM := State(0.0, 0, 0.0, false, false)

  function Reset(s: State): State {
    s.(lastFail := 0.0, failures := 0)
  }

  function Forgotten(s: State): State {
    Reset(s).(forced := false)
  }

  // A failed call outside the checks: as if the grace period had just passed and all but one confirmation had failed.
  function Forced(s: State, now: real, grace: real, required: int): State {
    s.(lastFail := now - (if grace > 0.0 then grace else 0.0), failures := Max(s.failures, Max(1, required - 1)),
       forced := true)
  }

  // A forced recovery for another key than the active one is dropped.
  function Adopted(s: State, c: Call): State {
    if s.forced && c.keyChanged then Forgotten(s) else s
  }

  function React(s: State, c: Call): Reaction {
    Judged(Adopted(s, c), c)
  }

  function Judged(s: State, c: Call): Reaction {
    if s.inProgress || c.poolBusy then Reaction(s, Refused)
    else if !s.forced && s.lastAttempt != 0.0 && c.now - s.lastAttempt < c.cooldown then Reaction(s, Refused)
    else if !s.forced && c.recentSuccess then Reaction(Reset(s), Alive)
    else if !s.forced && c.startupHold then Reaction(if s.lastFail != 0.0 then Reset(s) else s, Quiet)
    else if s.lastFail != 0.0 && !s.forced && c.now - s.lastFail < c.grace then Reaction(s, Refused)
    else if s.lastFail == 0.0 && c.first.None? then Reaction(s, Unknown)
    else if s.lastFail == 0.0 && c.first.value then Reaction(Forgotten(s), Alive)
    else if !s.forced && c.excused then Reaction(Reset(s), Alive)
    else if s.lastFail == 0.0 then Reaction(s.(lastFail := c.now, failures := 0), FirstFailure)
    else if c.confirm.None? then Reaction(s, Unknown)
    else if c.confirm.value then Reaction(Forgotten(s), Alive)
    else
      var s1 := s.(lastFail := c.now, failures := s.failures + 1);
      Reaction(s1, Confirmed(s1.failures >= Max(1, c.minFailures) && !c.deferred))
  }

  /** The state dictionary, changed in place up to the start of the switch phase. */
  class FailoverState {
    var s: State

    constructor ()
      ensures s == CALM
    {
      s := CALM;
    }

    method ForgetFailures()
      modifies this
      ensures s == Reset(old(s))
    {
      s := s.(lastFail := 0.0);
      s := s.(failures := 0);
    }

    method Clear()
      modifies this
      ensures s == Forgotten(old(s))
    {
      ForgetFailures();
      s := s.(forced := false);
    }

    method Prime(now: real, grace: real, required: int)
      modifies this
      ensures s == Forced(old(s), now, grace, required)
    {
      s := s.(lastFail := now - if grace > 0.0 then grace else 0.0);
      s := s.(forced := true);
      s := s.(failures := Max(s.failures, Max(1, required - 1)));
    }

    method Check(c: Call) returns (answer: Answer)
      modifies this
      ensures Reaction(s, answer) == React(old(s), c)
    {
      if s.forced && c.keyChanged {
        Clear();
      }
      if s.inProgress || c.poolBusy { return Refused; }
      if !s.forced && s.lastAttempt != 0.0 && c.now - s.lastAttempt < c.cooldown { return Refused; }
      if !s.forced && c.recentSuccess {
        ForgetFailures();
        return Alive;
      }
      if !s.forced && c.startupHold {
        if s.lastFail != 0.0 { ForgetFailures(); }
        return Quiet;
      }
      if s.lastFail != 0.0 && !s.forced && c.now - s.lastFail < c.grace { return Refused; }
      if s.lastFail == 0.0 {
        if c.first.None? { return Unknown; }
        if c.first.value {
          Clear();
          return Alive;
        }
      }
      if !s.forced && c.excused {
        ForgetFailures();
        return Alive;
      }
      if s.lastFail == 0.0 {
        s := s.(lastFail := c.now, failures := 0);
        return FirstFailure;
      }
      if c.confirm.None? { return Unknown; }
      if c.confirm.value {
        Clear();
        return Alive;
      }
      s := s.(lastFail := c.now);
      s := s.(failures := s.failures + 1);
      answer := Confirmed(s.failures >= Max(1, c.minFailures) && !c.deferred);
    }
  }

  // The switch phase ends with a reset, without the force but with the count (an apply that is blocked), or with both;
  // in any case the attempt may be noted.  Outside the checks
  // a failed Telegram call presets the count and forces a recovery, and a healthy poll, a manual apply or the end of
  // maintenance clears it.
  datatype PhaseEnd = Succeeded | ApplyBlocked | Unresolved

  datatype Event = Check(call: Call) | PhaseOver(end: PhaseEnd, attempt: Option<real>)
                 | Primed(now: real, grace: real, required: int) | Cleared

  // What a run notes: a first failure, a confirmed one, a preset with what it added to the count, that nothing is
  // forced any more, or that no failure is counted either.
  datatype Note = First(at: real) | Again(at: real, grace: real, forced: bool, switches: bool, needed: int, count: nat)
                | Preset(at: real, lent: nat) | Released(at: real) | Calm

  // What a preset adds to the count.
  function Lends(s: State, required: int): nat {
    Max(s.failures, Max(1, required - 1)) - s.failures
  }

  function Next(s: State, e: Event): State {
    match e
    case Check(c) => var r := React(s, c); if r.answer == Confirmed(true) then r.state.(inProgress := true) else r.state
    case PhaseOver(end, attempt) =>
      var s1 := if attempt.Some? then s.(lastAttempt := attempt.value) else s;
      (if end.Succeeded? then Forgotten(s1)
       else if end.ApplyBlocked? then s1.(forced := false) else s1).(inProgress := false)
    case Primed(now, grace, required) => Forced(s, now, grace, required)
    case Cleared => Forgotten(s)
  }

  function Noted(s: State, e: Event): seq<Note> {
    match e
    case PhaseOver(end, _) => if end.Succeeded? then [Calm] else if end.ApplyBlocked? then [Released(s.lastFail)]
                                                                 else []
    case Primed(_, _, required) => [Preset(Next(s, e).lastFail, Lends(s, required))]
    case Cleared => [Calm]
    case Check(c) => (if s.forced && c.keyChanged then [Calm] else []) + Found(Adopted(s, c), c)
  }

  function Found(s: State, c: Call): seq<Note> {
    var r := Judged(s, c);
    match r.answer
    case FirstFailure => [First(c.now)]
    case Confirmed(switches) => [Again(c.now, c.grace, s.forced, switches, c.minFailures, r.state.failures)]
    case _ => if r.state.lastFail == 0.0 && r.state.failures == 0 && !r.state.forced then [Calm] else []
  }

  function Play(events: seq<Event>): State {
    if events == [] then CALM else Next(Play(events[..|events| - 1]), events[|events| - 1])
  }

  function History(events: seq<Event>): seq<Note> {
    if events == [] then []
    else History(events[..|events| - 1]) + Noted(Play(events[..|events| - 1]), events[|events| - 1])
  }

  // The confirmed failures since the count last started anew.
  function Confirms(h: seq<Note>): nat {
    if h == [] || h[|h| - 1].Calm? || h[|h| - 1].First? then 0
    else Confirms(h[..|h| - 1]) + if h[|h| - 1].Again? then 1 else 0
  }

  // What presets added to the count since then.
  function Lent(h: seq<Note>): nat {
    if h == [] || h[|h| - 1].Calm? || h[|h| - 1].First? then 0
    else Lent(h[..|h| - 1]) + if h[|h| - 1].Preset? then h[|h| - 1].lent else 0
  }

  // The count started with a first failed check.
  predicate Begun(h: seq<Note>) {
    h != [] && (h[|h| - 1].First? || (!h[|h| - 1].Calm? && Begun(h[..|h| - 1])))
  }

  // A preset since nothing was forced.
  predicate PresetSince(h: seq<Note>) {
    h != [] && !h[|h| - 1].Calm? && !h[|h| - 1].Released? && (h[|h| - 1].Preset? || PresetSince(h[..|h| - 1]))
  }

  // A confirmed failure follows the failure before it after the grace period, unless the recovery is forced.
  ghost predicate Follows(before: Note, note: Note) {
    note.Again? && !before.Calm? && (note.forced || note.at >= before.at + note.grace)
  }

  ghost predicate Accounts(s: State, h: seq<Note>) {
    && s.failures == Confirms(h) + Lent(h)
    && (s.forced <==> PresetSince(h))
    && (s.lastFail != 0.0 ==> h != [] && !h[|h| - 1].Calm? && h[|h| - 1].at == s.lastFail)
    && (s.lastFail != 0.0 || s.failures > 0 ==> Begun(h) || Lent(h) > 0)
  }

  // The count consists of confirmed failures alone, behind a first failed check, and reaches the required number.
  ghost predicate Earned(h: seq<Note>, k: nat)
    requires k < |h| && h[k].Again?
  {
    && Begun(h[..k + 1]) && h[k].count == Confirms(h[..k + 1]) >= Max(1, h[k].needed)
    && Follows(if k > 0 then h[k - 1] else Calm, h[k])
  }

  // A confirmed failure: what its count is made of, and when it is spaced from the note before.
  ghost predicate Accounted(h: seq<Note>, k: nat)
    requires k < |h| && h[k].Again?
  {
    && h[k].count == Confirms(h[..k + 1]) + Lent(h[..k + 1])
    && (h[k].switches ==> h[k].count >= Max(1, h[k].needed) && (Earned(h, k) <==> Lent(h[..k + 1]) == 0))
    && k > 0 && Follows(h[k - 1], h[k])
    && (h[k].forced <==> PresetSince(h[..k]))
  }

  lemma Appended(h: seq<Note>, note: Note)
    ensures var after := h + [note];
      && Confirms(after) == (if note.Calm? || note.First? then 0 else Confirms(h) + if note.Again? then 1 else 0)
      && Lent(after) == (if note.Calm? || note.First? then 0 else Lent(h) + if note.Preset? then note.lent else 0)
      && (Begun(after) <==> note.First? || (!note.Calm? && Begun(h)))
      && (PresetSince(after) <==> !note.Calm? && !note.Released? && (note.Preset? || PresetSince(h)))
  {
    assert (h + [note])[..|h|] == h;
  }

  // The part of a check behind the test for another key.
  lemma FoundAccounts(s: State, h: seq<Note>, c: Call)
    requires Accounts(s, h)
    ensures Accounts(Judged(s, c).state, h + Found(s, c)) && |Found(s, c)| <= 1
    ensures forall k :: |h| <= k < |h + Found(s, c)| && (h + Found(s, c))[k].Again? ==> Accounted(h + Found(s, c), k)
  {
    var found := Found(s, c);
    if found == [] {
      assert h + found == h;
    } else {
      Appended(h, found[0]);
      assert h + found == h + [found[0]];
      if found[0].Again? {
        assert (h + found)[..|h| + 1] == h + found;
        assert (h + found)[..|h|] == h;
      }
    }
  }

  lemma DroppedAccounts(s: State, h: seq<Note>, c: Call)
    requires Accounts(s, h)
    ensures Accounts(Adopted(s, c), h + if s.forced && c.keyChanged then [Calm] else [])
  {
    if s.forced && c.keyChanged { Appended(h, Calm); } else { assert h + [] == h; }
  }

  lemma CheckAccounts(s: State, h: seq<Note>, c: Call)
    requires Accounts(s, h)
    ensures Accounts(Next(s, Check(c)), h + Noted(s, Check(c)))
    ensures forall k :: |h| <= k < |h + Noted(s, Check(c))| && (h + Noted(s, Check(c)))[k].Again? ==>
              Accounted(h + Noted(s, Check(c)), k)
  {
    var dropped: seq<Note> := if s.forced && c.keyChanged then [Calm] else [];
    DroppedAccounts(s, h, c);
    FoundAccounts(Adopted(s, c), h + dropped, c);
    var after := h + dropped + Found(Adopted(s, c), c);
    assert h + Noted(s, Check(c)) == after;
    assert forall k :: |h| <= k < |h + dropped| ==> after[k] == Calm;
  }

  lemma OtherAccounts(s: State, h: seq<Note>, e: Event)
    requires Accounts(s, h) && !e.Check?
    ensures Accounts(Next(s, e), h + Noted(s, e)) && forall n :: n in Noted(s, e) ==> !n.Again?
  {
    if Noted(s, e) == [] {
      assert h + [] == h;
    } else {
      Appended(h, Noted(s, e)[0]);
      assert h + Noted(s, e) == h + [Noted(s, e)[0]];
    }
  }

  lemma AccountedBefore(before: seq<Note>, h: seq<Note>, k: nat)
    requires k < |before| <= |h| && before == h[..|before|] && h[k].Again? && Accounted(before, k)
    ensures Accounted(h, k)
  {
    assert before[..k + 1] == h[..k + 1] && before[..k] == h[..k];
  }

  /** In every run the count of a confirmed failure is the number of confirmed failures since it started anew plus what
      presets lent it; each of them keeps the grace period unless a preset came since all was calm; and a switch is
      earned by as many confirmed failures as required, behind a first failed check, exactly if no preset lent any. */
  lemma {:induction false} EverySwitchIsAccounted(events: seq<Event>)
    ensures Accounts(Play(events), History(events))
    ensures forall k :: 0 <= k < |History(events)| && History(events)[k].Again? ==> Accounted(History(events), k)
  {
    if events != [] {
      var earlier, e := events[..|events| - 1], events[|events| - 1];
      EverySwitchIsAccounted(earlier);
      var before, h := History(earlier), History(events);
      if e.Check? { CheckAccounts(Play(earlier), before, e.call); } else { OtherAccounts(Play(earlier), before, e); }
      forall k | 0 <= k < |h| && h[k].Again? ensures Accounted(h, k) {
        if k < |before| {
          assert h[k] == before[k];
          AccountedBefore(before, h, k);
        } else {
          assert h[k] in Noted(Play(earlier), e);
        }
      }
    }
  }

  lemma {:induction false} NothingLent(h: seq<Note>, more: seq<Note>)
    requires forall n :: n in more ==> !n.Preset?
    ensures Lent(h + more) <= Lent(h)
  {
    if more == [] {
      assert h + more == h;
    } else {
      var front := more[..|more| - 1];
      NothingLent(h, front);
      Appended(h + front, more[|more| - 1]);
      assert h + more == h + front + [more[|more| - 1]];
    }
  }

  lemma NothingPreset(s: State, e: Event)
    requires !e.Primed?
    ensures forall n :: n in Noted(s, e) ==> !n.Preset?
  {
  }

  /** However often failures preset the count, together they lend no more than the highest preset. */
  lemma {:induction false} PresetsLendLittle(events: seq<Event>, most: nat)
    requires forall i :: 0 <= i < |events| && events[i].Primed? ==> Max(1, events[i].required - 1) <= most
    ensures Lent(History(events)) <= most
  {
    if events != [] {
      var earlier, e := events[..|events| - 1], events[|events| - 1];
      PresetsLendLittle(earlier, most);
      var s, before := Play(earlier), History(earlier);
      if e.Primed? {
        EverySwitchIsAccounted(earlier);
        Appended(before, Noted(s, e)[0]);
      } else {
        NothingPreset(s, e);
        NothingLent(before, Noted(s, e));
      }
    }
  }

  // A call whose confirmation fails and that nothing excuses.
  function FailingCall(now: real, grace: real, required: int): Call {
    Call(now, grace, 0.0, required, false, false, false, false, Some(false), false, Some(false), false)
  }

  const PRIMED := Primed(1000.0, 90.0, 3)
  const SWITCHING := Check(FailingCall(1001.0, 90.0, 3))

  lemma ExampleHistory()
    ensures History([PRIMED, SWITCHING]) == [Preset(910.0, 2)] + [Again(1001.0, 90.0, true, true, 3, 3)]
  {
    assert [PRIMED][..0] == [] && [PRIMED, SWITCHING][..1] == [PRIMED];
    var s := Forced(CALM, 1000.0, 90.0, 3);
    assert Play([PRIMED]) == s && History([PRIMED]) == [Preset(910.0, 2)];
    assert Judged(s, SWITCHING.call).answer == Confirmed(true);
  }

  /** A run in which one failed confirmation switches although three are required. */
  lemma UnearnedSwitchExample()
    ensures var h := History([PRIMED, SWITCHING]);
      |h| == 2 && h[1].Again? && h[1].switches && h[1].needed == 3 && Confirms(h) == 1 && Lent(h) == 2 && !Earned(h, 1)
  {
    ExampleHistory();
    var preset: seq<Note>, note := [Preset(910.0, 2)], Again(1001.0, 90.0, true, true, 3, 3);
    assert [] + preset == preset;
    Appended([], Preset(910.0, 2));
    Appended(preset, note);
    assert (preset + [note])[..2] == preset + [note];
  }

  // The call is looked into: nothing is under way, and unless a recovery is forced, no cooldown, recent success,
  // startup or transient failure speaks against it.
  predicate Due(s: State, c: Call) {
    && !s.inProgress && !c.poolBusy
    && (s.forced || ((s.lastAttempt == 0.0 || c.now - s.lastAttempt >= c.cooldown)
                     && !c.recentSuccess && !c.startupHold && !c.excused))
  }

  /** A failure is noted exactly on a due call without one whose check fails, and confirmed exactly on a due call whose
      confirmation fails, behind the grace period unless it is forced; it switches exactly if that reaches the required
      number and is not deferred. */
  lemma CountedExactly(s: State, c: Call)
    requires !(s.forced && c.keyChanged)
    ensures var r := React(s, c);
      && (r.answer.FirstFailure? <==> s.lastFail == 0.0 && Due(s, c) && c.first == Some(false))
      && (r.answer.Confirmed? <==>
            s.lastFail != 0.0 && Due(s, c) && (s.forced || c.now - s.lastFail >= c.grace) && c.confirm == Some(false))
      && (r.answer.Confirmed? ==>
            (r.answer.switches <==> s.failures + 1 >= Max(1, c.minFailures) && !c.deferred))
  {
  }

  /** Any sign of life starts the count anew; a call that is put off or learns nothing leaves everything as it was. */
  lemma OtherwiseForgotten(s: State, c: Call)
    requires !(s.forced && c.keyChanged)
    ensures var r := React(s, c);
      && (r.answer.Alive? ==> r.state.lastFail == 0.0 && r.state.failures == 0
                              && (c.recentSuccess || c.excused || c.first == Some(true) || c.confirm == Some(true)))
      && (r.answer.Quiet? ==> r.state.lastFail == 0.0 && !s.forced && c.startupHold)
      && (r.answer.Refused? ==> r.state == s && (s.inProgress || c.poolBusy || !s.forced))
      && (r.answer.Unknown? ==> r.state == s && (c.first.None? || c.confirm.None?))
  {
  }

  /** While a switch is under way every call is refused, and it is under way from the call that enters it until its
      phase is over, whatever else happens. */
  lemma OneSwitchAtATime(s: State, e: Event)
    ensures e.Check? ==>
              && (s.inProgress ==> React(s, e.call).answer.Refused?)
              && (Next(s, e).inProgress <==> s.inProgress || React(s, e.call).answer == Confirmed(true))
    ensures e.PhaseOver? ==> !Next(s, e).inProgress
    ensures e.Primed? || e.Cleared? ==> Next(s, e).inProgress == s.inProgress
  {
  }

  /** A failed call outside the checks makes the next due call ask for a confirmation at once, however long the grace
      period is, and it never lowers the count. */
  lemma PresetIsAtOnce(s: State, now: real, grace: real, required: int)
    ensures var after := Forced(s, now, grace, required);
      && after.forced && after.lastFail <= now && (grace >= 0.0 ==> now - after.lastFail == grace)
      && (grace < 0.0 ==> after.lastFail == now)
      && after.failures >= s.failures && after.failures >= 1 && after.failures >= required - 1
      && (after.failures == s.failures || after.failures == 1 || after.failures == required - 1)
      && after.lastAttempt == s.lastAttempt && after.inProgress == s.inProgress
  {
  }

  // Nothing excuses the failure: the checks fail and the grace period is over.
  predicate Persists(s: State, c: Call) {
    && !s.inProgress && !c.poolBusy && !(s.forced && c.keyChanged)
    && (s.forced || ((s.lastAttempt == 0.0 || c.now - s.lastAttempt >= c.cooldown)
                     && !c.recentSuccess && !c.startupHold && !c.excused
                     && (s.lastFail == 0.0 || c.now - s.lastFail >= c.grace)))
    && c.first == Some(false) && c.confirm == Some(false) && !c.deferred && c.now != 0.0
  }

  lemma PersistsStep(s: State, c: Call)
    requires Persists(s, c)
    ensures var r := React(s, c);
      && r.state.lastFail == c.now && r.state.failures == (if s.lastFail == 0.0 then 0 else s.failures + 1)
      && r.answer == if s.lastFail == 0.0 then FirstFailure else Confirmed(s.failures + 1 >= Max(1, c.minFailures))
  {
  }

  function Persisting(s: State, calls: seq<Call>): State {
    if calls == [] then s else React(Persisting(s, calls[..|calls| - 1]), calls[|calls| - 1]).state
  }

  /** A failure that persists from a calm state is noted once and then confirmed call by call, and the call whose
      confirmation reaches the required number enters the switch. */
  lemma {:induction false} PersistentFailureSwitches(calls: seq<Call>)
    requires calls != [] && forall i :: 0 <= i < |calls| ==> Persists(Persisting(CALM, calls[..i]), calls[i])
    ensures var last := calls[|calls| - 1]; var r := React(Persisting(CALM, calls[..|calls| - 1]), last);
      && r.state.lastFail == last.now && r.state.failures == |calls| - 1
      && r.answer == if |calls| == 1 then FirstFailure else Confirmed(|calls| - 1 >= Max(1, last.minFailures))
  {
    var front, last := calls[..|calls| - 1], calls[|calls| - 1];
    assert Persists(Persisting(CALM, front), last);
    PersistsStep(Persisting(CALM, front), last);
    if front == [] {
      assert Persisting(CALM, front) == CALM;
    } else {
      forall i | 0 <= i < |front| ensures Persists(Persisting(CALM, front[..i]), front[i]) {
        assert front[..i] == calls[..i] && front[i] == calls[i];
      }
      PersistentFailureSwitches(front);
      assert Persisting(CALM, front) == React(Persisting(CALM, front[..|front| - 1]), front[|front| - 1]).state;
    }
  }

  /** Behind a preset a single failed confirmation enters the switch, whatever was counted before. */
  lemma PrimedFailureSwitches(s: State, now: real, grace: real, required: int, c: Call)
    requires c.minFailures == required && Persists(Forced(s, now, grace, required), c)
    requires Forced(s, now, grace, required).lastFail != 0.0
    ensures React(Forced(s, now, grace, required), c).answer == Confirmed(true)
    ensures React(Forced(s, now, grace, required), c).state.failures == Max(s.failures, Max(1, required - 1)) + 1
  {
    PersistsStep(Forced(s, now, grace, required), c);
  }
}
