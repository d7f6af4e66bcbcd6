/**
 The switch phase of the Telegram failover (app/auto_failover_runtime.py:330-550): try candidates on the permanent
 proxy, one transaction each, and put the original key back after each that fails.  A script says what the injected
 operations of an attempt do; a failing operation may still have taken effect, and one whose exception nobody catches
 leaves everything as it is at that moment.
 */
module Failover {
  import opened Wrappers

  type Proto = string
  type Key = string

  datatype Candidate = Candidate(proto: Proto, key: Key)

  // The installed keys, the keys the proxies run with, the keys marked active, and whether a transaction is open.
  datatype Router = Router(keys: map<Proto, Key>, running: map<Proto, Key>, active: map<Proto, Key>, open: bool)

  // restore_original_key: install, activate, mark, close the transaction; it can stop at any of the four.
  datatype Restore = Restores | StopsAt(stage: nat, effect: bool)

  // `Escapes` is an exception out of the first validity check (0), the begin of the transaction (1), the record of a
  // failed or a done installation (2), the record of a failed confirmation or the checks behind it (3), or the
  // mark (4).
  datatype Try =
    | Stale
    | Escapes(stage: nat, effect: bool)
    | NotBegun(persisted: bool)
    | Blocked(cleared: bool, raises: bool)
    | InstallFails(effect: bool, restore: Restore)
    | NotRecorded(restore: Restore)
    | NotConfirmed(activated: bool, restore: Restore)
    | NotServed(restore: Restore)
    | StaleAfter(restore: Restore)
    | NotVerified(restore: Restore)
    | Confirmed(cleared: bool)

  // One turn of the candidate loop: what the pool search picks, and how it goes.
  datatype Turn = Turn(pick: Option<Candidate>, go: Try)

  datatype Exit = Switched | NotSwitched | Raised

  // `installs` lists the candidates whose installation took effect, in order.
  datatype Run = Run(router: Router, exit: Exit, installs: seq<Candidate>)

  function Install(r: Router, c: Candidate): Router {
    r.(keys := r.keys[c.proto := c.key])
  }

  function Activate(r: Router, p: Proto): Router {
    if p in r.keys then r.(running := r.running[p := r.keys[p]]) else r
  }

  // The state after a restore that reaches `stage`, with or without that stage's effect.
  function RestoreTo(r: Router, original: Candidate, stage: nat, effect: bool): Router {
    var r1 := if stage > 0 || effect then Install(r, original) else r;
    var r2 := if stage > 1 || (stage == 1 && effect) then Activate(r1, original.proto) else r1;
    var r3 := if stage > 2 || (stage == 2 && effect) then r2.(active := r2.active[original.proto := original.key])
              else r2;
    if stage > 3 || (stage == 3 && effect) then r3.(open := false) else r3
  }

  function RestoreOriginal(r: Router, original: Candidate, how: Restore): Router {
    if how.Restores? then RestoreTo(r, original, 4, true)
    else RestoreTo(r, original, if how.stage < 3 then how.stage else 3, how.effect)
  }

  function Without(candidates: seq<Candidate>, c: Candidate): seq<Candidate> {
    if candidates == [] then []
    else if candidates[0] == c then Without(candidates[1..], c) else [candidates[0]] + Without(candidates[1..], c)
  }

  // The candidate as the permanent proxy sees it once installed and, usually, activated.
  function Placed(r: Router, c: Candidate, activated: bool): Router {
    var r1 := Install(r.(open := true), c);
    if activated then Activate(r1, c.proto) else r1
  }

  // An uncaught exception at a stage, with or without that stage's effect.
  function Escaped(r: Router, c: Candidate, stage: nat, effect: bool): Router {
    if stage == 0 then r
    else if stage == 1 then r.(open := r.open || effect)
    else if stage == 2 then (if effect then Placed(r, c, false) else r.(open := true))
    else if stage == 3 then Placed(r, c, effect)
    else if effect then Placed(r, c, true).(active := r.active[c.proto := c.key]) else Placed(r, c, true)
  }

  // What one attempt does: the router, whether the loop goes on, and the exit otherwise.
  datatype Attempted = GoesOn(router: Router) | Ends(router: Router, exit: Exit)

  function AfterRestore(r: Router, original: Candidate, how: Restore): Attempted {
    var restored := RestoreOriginal(r, original, how);
    if how.Restores? then GoesOn(restored) else Ends(restored, NotSwitched)
  }

  function Attempt(r: Router, original: Candidate, c: Candidate, go: Try): Attempted {
    match go
    case Stale => Ends(r, NotSwitched)
    case Escapes(stage, effect) => Ends(Escaped(r, c, stage, effect), Raised)
    case NotBegun(persisted) => Ends(if persisted then r.(open := true) else r, NotSwitched)
    case Blocked(cleared, raises) =>
      Ends(r.(open := !cleared && raises), if raises then Raised else NotSwitched)
    case InstallFails(effect, restore) =>
      AfterRestore(if effect then Placed(r, c, false) else r.(open := true), original, restore)
    case NotRecorded(restore) => Ends(RestoreOriginal(Placed(r, c, false), original, restore), NotSwitched)
    case NotConfirmed(activated, restore) => AfterRestore(Placed(r, c, activated), original, restore)
    case NotServed(restore) => AfterRestore(Placed(r, c, true), original, restore)
    case StaleAfter(restore) => Ends(RestoreOriginal(Placed(r, c, true), original, restore), NotSwitched)
    case NotVerified(restore) => Ends(RestoreOriginal(Placed(r, c, true), original, restore), NotSwitched)
    case Confirmed(cleared) =>
      var done := Placed(r, c, true);
      Ends(done.(active := done.active[c.proto := c.key], open := !cleared), Switched)
  }

  // Whether this attempt wrote the candidate's key.
  predicate Installs(go: Try) {
    !(go.Stale? || go.NotBegun? || go.Blocked? || (go.InstallFails? && !go.effect)
      || (go.Escapes? && (go.stage < 2 || (go.stage == 2 && !go.effect))))
  }

  function NoteOf(c: Candidate, go: Try): seq<Candidate> {
    if Installs(go) then [c] else []
  }

  function CandidateLoop(r: Router, original: Candidate, remaining: seq<Candidate>, attempts: nat, limit: nat,
                         turns: seq<Turn>, final: Restore): Run
    decreases |turns|
  {
    if remaining == [] || attempts >= limit || turns == [] || turns[0].pick.None?
       || turns[0].pick.value !in remaining then
      Run(if attempts == 0 then r else RestoreOriginal(r, original, final), NotSwitched, [])
    else
      var c, go := turns[0].pick.value, turns[0].go;
      var note := NoteOf(c, go);
      match Attempt(r, original, c, go)
      case Ends(after, exit) => Run(after, exit, note)
      case GoesOn(after) =>
        var rest := CandidateLoop(after, original, Without(remaining, c), attempts + 1, limit, turns[1..], final);
        rest.(installs := note + rest.installs)
  }

  function SwitchPhase(r: Router, mode: Proto, candidates: seq<Candidate>, maxCandidates: int, turns: seq<Turn>,
                       final: Restore): Run
    requires mode in r.keys
  {
    CandidateLoop(r, Candidate(mode, r.keys[mode]), candidates, 0, Max(1, maxCandidates), turns, final)
  }

  // What is left of the loop, behind the installs so far, is the whole run.
  ghost predicate Onward(whole: Run, r: Router, original: Candidate, remaining: seq<Candidate>, attempts: nat,
                         limit: nat,
                         turns: seq<Turn>, final: Restore, installs: seq<Candidate>) {
    var rest := CandidateLoop(r, original, remaining, attempts, limit, turns, final);
    whole == rest.(installs := installs + rest.installs)
  }

  lemma OneTurn(whole: Run, r: Router, original: Candidate, remaining: seq<Candidate>, attempts: nat, limit: nat,
                turns: seq<Turn>, final: Restore, installs: seq<Candidate>)
    requires Onward(whole, r, original, remaining, attempts, limit, turns, final, installs)
    requires remaining != [] && attempts < limit && turns != [] && turns[0].pick.Some?
    requires turns[0].pick.value in remaining
    ensures var c, go := turns[0].pick.value, turns[0].go;
      var more := installs + NoteOf(c, go);
      match Attempt(r, original, c, go)
      case Ends(after, exit) => whole == Run(after, exit, more)
      case GoesOn(after) =>
        Onward(whole, after, original, Without(remaining, c), attempts + 1, limit, turns[1..], final, more)
  {
  }

  lemma WholeRun(r: Router, mode: Proto, candidates: seq<Candidate>, maxCandidates: int, turns: seq<Turn>,
                 final: Restore)
    requires mode in r.keys
    ensures Onward(SwitchPhase(r, mode, candidates, maxCandidates, turns, final), r,
                   Candidate(mode, r.keys[mode]), candidates, 0,
                   Max(1, maxCandidates), turns[0..], final, [])
  {
  }

  // The same at a place in the whole script.
  lemma TurnAt(whole: Run, r: Router, original: Candidate, remaining: seq<Candidate>, attempts: nat, limit: nat,
               turns: seq<Turn>, i: nat, final: Restore, installs: seq<Candidate>)
    requires i < |turns| && remaining != [] && attempts < limit
    requires Onward(whole, r, original, remaining, attempts, limit, turns[i..], final, installs)
    requires turns[i].pick.Some? && turns[i].pick.value in remaining
    ensures var c, go := turns[i].pick.value, turns[i].go;
      var more := installs + NoteOf(c, go);
      match Attempt(r, original, c, go)
      case Ends(after, exit) => whole == Run(after, exit, more)
      case GoesOn(after) =>
        Onward(whole, after, original, Without(remaining, c), attempts + 1, limit, turns[i + 1..], final, more)
  {
    assert turns[i..][0] == turns[i] && turns[i..][1..] == turns[i + 1..];
    OneTurn(whole, r, original, remaining, attempts, limit, turns[i..], final, installs);
  }

  lemma NoTurn(whole: Run, r: Router, original: Candidate, remaining: seq<Candidate>, attempts: nat, limit: nat,
               turns: seq<Turn>, final: Restore, installs: seq<Candidate>)
    requires Onward(whole, r, original, remaining, attempts, limit, turns, final, installs)
    requires remaining == []
             || attempts >= limit || turns == [] || turns[0].pick.None? || turns[0].pick.value !in remaining
    ensures whole == Run(if attempts == 0 then r else RestoreOriginal(r, original, final), NotSwitched, installs)
  {
  }

  class FailoverRuntime {
    var router: Router
    var inProgress: bool

    constructor (router: Router)
      ensures this.router == router && !inProgress
    {
      this.router, inProgress := router, false;
    }

    method RestoreOriginalKey(original: Candidate, how: Restore) returns (ok: bool)
      modifies this`router
      ensures router == RestoreOriginal(old(router), original, how) && (ok <==> how.Restores?)
    {
      if how.Restores? || how.stage > 0 || how.effect { router := Install(router, original); }
      if how.StopsAt? && how.stage == 0 { return false; }
      if how.Restores? || how.stage > 1 || how.effect { router := Activate(router, original.proto); }
      if how.StopsAt? && how.stage == 1 { return false; }
      if how.Restores? || how.stage > 2 || how.effect {
        router := router.(active := router.active[original.proto := original.key]);
      }
      if how.StopsAt? && how.stage == 2 { return false; }
      if how.Restores? || how.effect { router := router.(open := false); }
      ok := how.Restores?;
    }

    // Install and activate one candidate, confirm it, and restore the original key unless it is confirmed.
    method TryCandidate(original: Candidate, c: Candidate, go: Try) returns (ended: Option<Exit>)
      modifies this`router
      ensures var step := Attempt(old(router), original, c, go);
        router == step.router && ended == if step.Ends? then Some(step.exit) else None
    {
      if go.Stale? { return Some(NotSwitched); }
      if go.Escapes? && go.stage == 0 { return Some(Raised); }
      if go.Escapes? && go.stage == 1 {
        if go.effect { router := router.(open := true); }
        return Some(Raised);
      }
      if go.NotBegun? {
        if go.persisted { router := router.(open := true); }
        return Some(NotSwitched);
      }
      router := router.(open := true);
      if go.Blocked? {
        if go.cleared || !go.raises { router := router.(open := false); }
        return Some(if go.raises then Raised else NotSwitched);
      }
      var ok;
      if !(go.InstallFails? || (go.Escapes? && go.stage == 2)) || go.effect { router := Install(router, c); }
      if go.Escapes? && go.stage == 2 { return Some(Raised); }
      if go.InstallFails? {
        ok := RestoreOriginalKey(original, go.restore);
        return if ok then None else Some(NotSwitched);
      }
      if go.NotRecorded? {
        ok := RestoreOriginalKey(original, go.restore);
        return Some(NotSwitched);
      }
      if go.Escapes? && go.stage == 3 {
        if go.effect { router := Activate(router, c.proto); }
        return Some(Raised);
      }
      if !go.NotConfirmed? || go.activated { router := Activate(router, c.proto); }
      if go.NotConfirmed? || go.NotServed? {
        ok := RestoreOriginalKey(original, go.restore);
        return if ok then None else Some(NotSwitched);
      }
      if go.StaleAfter? || go.NotVerified? {
        ok := RestoreOriginalKey(original, go.restore);
        return Some(NotSwitched);
      }
      if go.Escapes? && !go.effect { return Some(Raised); }
      router := router.(active := router.active[c.proto := c.key]);
      if go.Escapes? { return Some(Raised); }
      if go.cleared { router := router.(open := false); }
      ended := Some(Switched);
    }

    /** The candidate loop.  `in_progress` is cleared on every exit. */
    method SwitchKey(mode: Proto, candidates: seq<Candidate>, maxCandidates: int, turns: seq<Turn>, final: Restore)
      returns (exit: Exit, ghost installs: seq<Candidate>)
      requires mode in router.keys
      modifies this
      ensures !inProgress
      ensures Run(router, exit, installs) == SwitchPhase(old(router), mode, candidates, maxCandidates, turns, final)
    {
      inProgress := true;
      var original := Candidate(mode, router.keys[mode]);
      var remaining, attempts, limit := candidates, 0, Max(1, maxCandidates);
      installs := [];
      ghost var whole := SwitchPhase(router, mode, candidates, maxCandidates, turns, final);
      WholeRun(router, mode, candidates, maxCandidates, turns, final);
      var i := 0;
      while remaining != [] && attempts < limit && i < |turns|
        invariant 0 <= i == attempts <= |turns|
        invariant Onward(whole, router, original, remaining, attempts, limit, turns[i..], final, installs)
        decreases |turns| - i
      {
        if turns[i].pick.None? || turns[i].pick.value !in remaining { break; }
        var c, go := turns[i].pick.value, turns[i].go;
        TurnAt(whole, router, original, remaining, attempts, limit, turns, i, final, installs);
        attempts, remaining := attempts + 1, Without(remaining, c);
        installs := installs + NoteOf(c, go);
        var ended := TryCandidate(original, c, go);
        if ended.Some? {
          inProgress := false;
          return ended.value, installs;
        }
        i := i + 1;
      }
      NoTurn(whole, router, original, remaining, attempts, limit, turns[i..], final, installs);
      if attempts > 0 { var ok := RestoreOriginalKey(original, final); }
      inProgress := false;
      exit := NotSwitched;
    }
  }

  // ---------------------------------------------------------------------------------------------
  // How a run ends.

  // The keys once the original protocol has its key back: what other protocols received stays.
  function Residue(keys: map<Proto, Key>, mode: Proto, installs: seq<Candidate>): map<Proto, Key> {
    if installs == [] then keys
    else
      var c := installs[|installs| - 1];
      var before := Residue(keys, mode, installs[..|installs| - 1]);
      if c.proto == mode then before else before[c.proto := c.key]
  }

  // The original key is installed; if anything was tried it also runs and is marked active.
  ghost predicate Back(r0: Router, original: Candidate, installs: seq<Candidate>, tried: bool, r: Router) {
    && original.proto in r0.keys && r0.keys[original.proto] == original.key
    && r.keys == Residue(r0.keys, original.proto, installs)
    && (tried ==> original.proto in r.running && r.running[original.proto] == original.key
                  && original.proto in r.active && r.active[original.proto] == original.key)
    && (!tried && installs == [] ==> r == r0)
  }

  lemma {:induction false} ResidueKeeps(keys: map<Proto, Key>, mode: Proto, installs: seq<Candidate>)
    requires mode in keys
    ensures var residue := Residue(keys, mode, installs); mode in residue && residue[mode] == keys[mode]
  {
    if installs != [] { ResidueKeeps(keys, mode, installs[..|installs| - 1]); }
  }

  ghost predicate Verified(c: Candidate, r: Router) {
    && c.proto in r.keys && r.keys[c.proto] == c.key
    && c.proto in r.running && r.running[c.proto] == c.key
    && c.proto in r.active && r.active[c.proto] == c.key
  }

  // Installing the original key would give the residue.
  ghost predicate Displaced(r0: Router, original: Candidate, installs: seq<Candidate>, r: Router) {
    && original.proto in r0.keys && r0.keys[original.proto] == original.key
    && r.keys[original.proto := original.key] == Residue(r0.keys, original.proto, installs)
  }

  lemma PlacedDisplaces(r0: Router, original: Candidate, done: seq<Candidate>, r: Router, c: Candidate)
    requires Displaced(r0, original, done, r)
    ensures Displaced(r0, original, done + [c], Install(r, c))
  {
  }

  // A restore that closes the transaction has done everything before.
  lemma RestoredIsBack(r0: Router, original: Candidate, installs: seq<Candidate>, r: Router, how: Restore)
    requires Displaced(r0, original, installs, r) && r.open
    ensures var after := RestoreOriginal(r, original, how);
      && (how.Restores? ==> !after.open)
      && (!after.open ==> Back(r0, original, installs, true, after))
  {
  }

  lemma BackIsDisplaced(r0: Router, original: Candidate, installs: seq<Candidate>, tried: bool, r: Router)
    requires Back(r0, original, installs, tried, r)
    ensures Displaced(r0, original, installs, r)
  {
    ResidueKeeps(r0.keys, original.proto, installs);
    assert r.keys[original.proto := original.key] == r.keys;
  }

  // A candidate that is not switched to: it could not be installed or recorded, or it was not confirmed, is not served
  // any more, is stale by now, or fails the last check.
  predicate Rejected(go: Try) {
    go.InstallFails? || go.NotRecorded? || go.NotConfirmed? || go.NotServed? || go.StaleAfter? || go.NotVerified?
  }

  // What the attempt has in hand when it restores.
  function InHand(r: Router, c: Candidate, go: Try): Router {
    match go
    case InstallFails(effect, _) => if effect then Placed(r, c, false) else r.(open := true)
    case NotRecorded(_) => Placed(r, c, false)
    case NotConfirmed(activated, _) => Placed(r, c, activated)
    case _ => Placed(r, c, true)
  }

  lemma InHandIsDisplaced(r0: Router, original: Candidate, done: seq<Candidate>, tried: bool, r: Router, c: Candidate,
                          go: Try)
    requires Back(r0, original, done, tried, r)
    requires Rejected(go)
    ensures Displaced(r0, original, if Installs(go) then done + [c] else done, InHand(r, c, go))
            && InHand(r, c, go).open
  {
    BackIsDisplaced(r0, original, done, tried, r);
    PlacedDisplaces(r0, original, done, r, c);
  }

  lemma AttemptEnds(r0: Router, original: Candidate, done: seq<Candidate>, tried: bool, r: Router, c: Candidate,
                    go: Try)
    requires Back(r0, original, done, tried, r)
    ensures var installs := if Installs(go) then done + [c] else done;
      match Attempt(r, original, c, go)
      case GoesOn(after) => Back(r0, original, installs, true, after)
      case Ends(after, exit) =>
        && (exit == Switched ==> Installs(go) && Verified(c, after))
        && (exit != Switched && !after.open ==> after.keys == Residue(r0.keys, original.proto, installs))
  {
    if Rejected(go) {
      InHandIsDisplaced(r0, original, done, tried, r, c, go);
      RestoredIsBack(r0, original, if Installs(go) then done + [c] else done, InHand(r, c, go), go.restore);
    }
  }

  // The restore after the loop changes no key.
  lemma FinalRestore(r0: Router, original: Candidate, done: seq<Candidate>, r: Router, how: Restore)
    requires Displaced(r0, original, done, r) && original.proto in r.keys && r.keys[original.proto] == original.key
    ensures RestoreOriginal(r, original, how).keys == Residue(r0.keys, original.proto, done)
  {
    assert r.keys[original.proto := original.key] == r.keys;
  }

  // The three ways to end: switched to a verified candidate, the transaction left open, or every key of the
  // original protocol back and only the residue of other protocols left.
  ghost predicate EndsWell(r0: Router, original: Candidate, done: seq<Candidate>, room: int, run: Run) {
    && |run.installs| <= room
    && (run.exit == Switched ==> run.installs != [] && Verified(run.installs[|run.installs| - 1], run.router))
    && (run.exit != Switched && !run.router.open ==>
          run.router.keys == Residue(r0.keys, original.proto, done + run.installs))
  }

  lemma LaterEndsWell(r0: Router, original: Candidate, done: seq<Candidate>, room: int, note: seq<Candidate>, rest: Run)
    requires |note| <= 1 && EndsWell(r0, original, done + note, room - 1, rest)
    ensures EndsWell(r0, original, done, room, rest.(installs := note + rest.installs))
  {
    assert done + note + rest.installs == done + (note + rest.installs);
  }

  lemma StopEndsWell(r0: Router, original: Candidate, done: seq<Candidate>, r: Router, attempts: nat, room: nat,
                     final: Restore)
    requires Back(r0, original, done, attempts > 0, r)
    ensures EndsWell(r0, original, done, room,
                     Run(if attempts == 0 then r else RestoreOriginal(r, original, final), NotSwitched, []))
  {
    assert done + [] == done;
    ResidueKeeps(r0.keys, original.proto, done);
    BackIsDisplaced(r0, original, done, attempts > 0, r);
    FinalRestore(r0, original, done, r, final);
  }

  lemma AttemptEndsWell(r0: Router, original: Candidate, done: seq<Candidate>, room: nat, r: Router, tried: bool,
                        c: Candidate, go: Try)
    requires Back(r0, original, done, tried, r) && room > 0
    ensures var note := NoteOf(c, go);
      match Attempt(r, original, c, go)
      case GoesOn(after) => Back(r0, original, done + note, true, after)
      case Ends(after, exit) => EndsWell(r0, original, done, room, Run(after, exit, note))
  {
    AttemptEnds(r0, original, done, tried, r, c, go);
    assert done + [] == done;
  }

  predicate LoopStops(remaining: seq<Candidate>, attempts: nat, limit: nat, turns: seq<Turn>) {
    remaining == [] || attempts >= limit || turns == [] || turns[0].pick.None? || turns[0].pick.value !in remaining
  }

  lemma StoppedLoop(r: Router, original: Candidate, remaining: seq<Candidate>, attempts: nat, limit: nat,
                    turns: seq<Turn>, final: Restore)
    requires LoopStops(remaining, attempts, limit, turns)
    ensures CandidateLoop(r, original, remaining, attempts, limit, turns, final) ==
            Run(if attempts == 0 then r else RestoreOriginal(r, original, final), NotSwitched, [])
  {
  }

  lemma TurnedLoop(r: Router, original: Candidate, remaining: seq<Candidate>, attempts: nat, limit: nat,
                   turns: seq<Turn>, final: Restore)
    requires !LoopStops(remaining, attempts, limit, turns)
    ensures var c, go := turns[0].pick.value, turns[0].go; var note := NoteOf(c, go);
      CandidateLoop(r, original, remaining, attempts, limit, turns, final) ==
      match Attempt(r, original, c, go)
      case Ends(after, exit) => Run(after, exit, note)
      case GoesOn(after) =>
        var rest := CandidateLoop(after, original, Without(remaining, c), attempts + 1, limit, turns[1..], final);
        rest.(installs := note + rest.installs)
  {
  }

  // A turn that ends the loop ends it well.
  lemma LastTurnEndsWell(r0: Router, original: Candidate, done: seq<Candidate>, r: Router, remaining: seq<Candidate>,
                         attempts: nat, limit: nat, turns: seq<Turn>, final: Restore)
    requires Back(r0, original, done, attempts > 0, r) && !LoopStops(remaining, attempts, limit, turns)
    requires Attempt(r, original, turns[0].pick.value, turns[0].go).Ends?
    ensures EndsWell(r0, original, done, limit - attempts,
                     CandidateLoop(r, original, remaining, attempts, limit, turns, final))
  {
    TurnedLoop(r, original, remaining, attempts, limit, turns, final);
    AttemptEndsWell(r0, original, done, limit - attempts, r, attempts > 0, turns[0].pick.value, turns[0].go);
  }

  // Any other turn ends the loop as well as the rest of it does.
  lemma TurnEndsWell(r0: Router, original: Candidate, done: seq<Candidate>, r: Router, remaining: seq<Candidate>,
                     attempts: nat, limit: nat, turns: seq<Turn>, final: Restore, rest: Run)
    requires !LoopStops(remaining, attempts, limit, turns)
    requires Attempt(r, original, turns[0].pick.value, turns[0].go).GoesOn?
    requires var c, go := turns[0].pick.value, turns[0].go;
      && rest == CandidateLoop(Attempt(r, original, c, go).router, original, Without(remaining, c), attempts + 1, limit,
                               turns[1..], final)
      && EndsWell(r0, original, done + NoteOf(c, go), limit - attempts - 1, rest)
    ensures EndsWell(r0, original, done, limit - attempts,
                     CandidateLoop(r, original, remaining, attempts, limit, turns, final))
  {
    TurnedLoop(r, original, remaining, attempts, limit, turns, final);
    LaterEndsWell(r0, original, done, limit - attempts, NoteOf(turns[0].pick.value, turns[0].go), rest);
  }

  lemma {:induction false} LoopEndsWell(r0: Router, original: Candidate, done: seq<Candidate>, r: Router,
                                        remaining: seq<Candidate>,
                                        attempts: nat, limit: nat, turns: seq<Turn>, final: Restore)
    requires Back(r0, original, done, attempts > 0, r) && attempts <= limit
    ensures EndsWell(r0, original, done, limit - attempts,
                     CandidateLoop(r, original, remaining, attempts, limit, turns, final))
    decreases |turns|
  {
    if LoopStops(remaining, attempts, limit, turns) {
      StoppedLoop(r, original, remaining, attempts, limit, turns, final);
      StopEndsWell(r0, original, done, r, attempts, limit - attempts, final);
    } else {
      var c, go := turns[0].pick.value, turns[0].go;
      var step := Attempt(r, original, c, go);
      if step.Ends? {
        LastTurnEndsWell(r0, original, done, r, remaining, attempts, limit, turns, final);
      } else {
        var note, others := NoteOf(c, go), Without(remaining, c);
        AttemptEndsWell(r0, original, done, limit - attempts, r, attempts > 0, c, go);
        LoopEndsWell(r0, original, done + note, step.router, others, attempts + 1, limit, turns[1..], final);
        var rest := CandidateLoop(step.router, original, others, attempts + 1, limit, turns[1..], final);
        TurnEndsWell(r0, original, done, r, remaining, attempts, limit, turns, final, rest);
      }
    }
  }

  /** Every run ends with a verified candidate installed, running and marked, or with the transaction left open, or
      with the keys restored up to what other protocols received; it installs at most the allowed number. */
  lemma EveryRunEndsWell(r: Router, mode: Proto, candidates: seq<Candidate>, maxCandidates: int, turns: seq<Turn>,
                         final: Restore)
    requires mode in r.keys
    ensures var run := SwitchPhase(r, mode, candidates, maxCandidates, turns, final);
      && |run.installs| <= Max(1, maxCandidates)
      && (run.exit == Switched ==> run.installs != [] && Verified(run.installs[|run.installs| - 1], run.router))
      && (run.exit != Switched && !run.router.open ==> run.router.keys == Residue(r.keys, mode, run.installs))
  {
    LoopEndsWell(r, Candidate(mode, r.keys[mode]), [], r, candidates, 0, Max(1, maxCandidates), turns, final);
    var run := SwitchPhase(r, mode, candidates, maxCandidates, turns, final);
    assert [] + run.installs == run.installs;
  }

  // The protocol has the same key, runs with the same one and has the same one marked.
  predicate SameAt(r: Router, after: Router, p: Proto) {
    && (p in after.keys <==> p in r.keys) && (p in r.keys ==> after.keys[p] == r.keys[p])
    && (p in after.running <==> p in r.running) && (p in r.running ==> after.running[p] == r.running[p])
    && (p in after.active <==> p in r.active) && (p in r.active ==> after.active[p] == r.active[p])
  }

  lemma RestoreReturns(r: Router, original: Candidate)
    ensures var after := RestoreOriginal(r, original, Restores);
      && Verified(original, after) && !after.open
      && (forall p :: p != original.proto ==> SameAt(r, after, p))
  {
  }

  // What a rejected attempt is restored from: the candidate's own protocol may have changed, but not its mark.
  lemma RestoredFrom(r: Router, original: Candidate, c: Candidate, go: Try)
    requires Rejected(go)
    ensures Attempt(r, original, c, go).router == RestoreOriginal(InHand(r, c, go), original, go.restore)
  {
  }

  lemma InHandElsewhere(r: Router, c: Candidate, go: Try)
    ensures InHand(r, c, go).active == r.active && (forall p :: p != c.proto ==> SameAt(r, InHand(r, c, go), p))
  {
  }

  /** Whatever the reason for which a candidate is rejected, a restore that works puts the original key back, running
      and marked, and closes the transaction. */
  lemma RejectedIsRestored(r: Router, original: Candidate, c: Candidate, go: Try)
    requires Rejected(go) && go.restore.Restores?
    ensures var after := Attempt(r, original, c, go).router; Verified(original, after) && !after.open
  {
    RestoredFrom(r, original, c, go);
    RestoreReturns(InHand(r, c, go), original);
  }

  /** It touches no other protocol but the candidate's, whose mark stays. */
  lemma RejectedElsewhere(r: Router, original: Candidate, c: Candidate, go: Try, p: Proto)
    requires Rejected(go) && go.restore.Restores? && p != original.proto
    ensures p != c.proto ==> SameAt(r, Attempt(r, original, c, go).router, p)
    ensures var after := Attempt(r, original, c, go).router;
      (p in after.active <==> p in r.active) && (p in r.active ==> after.active[p] == r.active[p])
  {
    var before := InHand(r, c, go);
    RestoredFrom(r, original, c, go);
    InHandElsewhere(r, c, go);
    RestoreReturns(before, original);
    assert SameAt(before, RestoreOriginal(before, original, Restores), p);
  }

  // The loop goes on exactly behind these.
  lemma RejectedGoesOn(r: Router, original: Candidate, c: Candidate, go: Try)
    ensures Attempt(r, original, c, go).GoesOn? <==>
              (go.InstallFails? || go.NotConfirmed? || go.NotServed?) && go.restore.Restores?
  {
  }

  // What leaves the transaction of an attempt open: it began and was not recorded as such, an exception, a restore that
  // stops before the transaction is closed, or a switch whose transaction could not be cleared.
  predicate LeavesOpen(go: Try) {
    match go
    case Stale => false
    case Escapes(stage, effect) => stage > 1 || (stage == 1 && effect)
    case NotBegun(persisted) => persisted
    case Blocked(cleared, raises) => raises && !cleared
    case Confirmed(cleared) => !cleared
    case _ => KeepsOpen(go.restore)
  }

  predicate KeepsOpen(how: Restore) {
    how.StopsAt? && !(how.stage >= 3 && how.effect)
  }

  /** After an attempt that began without an open transaction, one is open exactly in these cases. */
  lemma OpenExactly(r: Router, original: Candidate, c: Candidate, go: Try)
    requires !r.open
    ensures Attempt(r, original, c, go).router.open <==> LeavesOpen(go)
  {
  }

  // Some turn of the script, or the restore behind the loop, leaves the transaction open.
  ghost predicate OpenedBy(turns: seq<Turn>, final: Restore) {
    KeepsOpen(final) || exists i :: 0 <= i < |turns| && turns[i].pick.Some? && LeavesOpen(turns[i].go)
  }

  /** A run leaves the transaction open only if some turn of it, or the restore behind the loop, did. */
  lemma {:induction false} OpenHasReason(r: Router, original: Candidate, remaining: seq<Candidate>, attempts: nat,
                                         limit: nat, turns: seq<Turn>, final: Restore)
    requires !r.open
    ensures CandidateLoop(r, original, remaining, attempts, limit, turns, final).router.open ==> OpenedBy(turns, final)
    decreases |turns|
  {
    if LoopStops(remaining, attempts, limit, turns) {
      StoppedLoop(r, original, remaining, attempts, limit, turns, final);
    } else {
      TurnedLoop(r, original, remaining, attempts, limit, turns, final);
      var c, go := turns[0].pick.value, turns[0].go;
      OpenExactly(r, original, c, go);
      var step := Attempt(r, original, c, go);
      if step.GoesOn? {
        GoesOnClosed(r, original, c, go);
        OpenHasReason(step.router, original, Without(remaining, c), attempts + 1, limit, turns[1..], final);
        if OpenedBy(turns[1..], final) && !KeepsOpen(final) {
          var i :| 0 <= i < |turns[1..]| && turns[1..][i].pick.Some? && LeavesOpen(turns[1..][i].go);
          assert turns[i + 1] == turns[1..][i];
        }
      }
    }
  }

  lemma GoesOnClosed(r: Router, original: Candidate, c: Candidate, go: Try)
    requires Attempt(r, original, c, go).GoesOn?
    ensures Rejected(go) && go.restore.Restores? && !Attempt(r, original, c, go).router.open
  {
  }

  /** A run in which every candidate is rejected and every restore works ends with the original key installed, running
      and marked and no transaction open. */
  lemma {:induction false} AllRejectedIsRestored(r: Router, original: Candidate, remaining: seq<Candidate>,
                                                 attempts: nat, limit: nat, turns: seq<Turn>, final: Restore)
    requires final.Restores? && (attempts > 0 ==> Verified(original, r) && !r.open)
    requires forall i :: 0 <= i < |turns| && turns[i].pick.Some? ==>
               Rejected(turns[i].go) && turns[i].go.restore.Restores?
    ensures var run := CandidateLoop(r, original, remaining, attempts, limit, turns, final);
      && run.exit == NotSwitched
      && (run.router == r || (Verified(original, run.router) && !run.router.open))
    decreases |turns|
  {
    if LoopStops(remaining, attempts, limit, turns) {
      StoppedLoop(r, original, remaining, attempts, limit, turns, final);
    } else {
      TurnedLoop(r, original, remaining, attempts, limit, turns, final);
      var c, go := turns[0].pick.value, turns[0].go;
      RejectedIsRestored(r, original, c, go);
      var step := Attempt(r, original, c, go);
      if step.GoesOn? {
        AllRejectedIsRestored(step.router, original, Without(remaining, c), attempts + 1, limit, turns[1..], final);
      }
    }
  }

  /** Wherever a restore stops, its steps were taken in their order: what runs was installed, what is marked runs. */
  lemma RestoreInOrder(r: Router, original: Candidate, stage: nat, effect: bool)
    ensures var after := RestoreTo(r, original, stage, effect);
      && (after.running != r.running ==> after.keys == r.keys[original.proto := original.key])
      && (after.active != r.active ==> after.running == r.running[original.proto := original.key])
  {
  }

  /** The transaction is closed last. */
  lemma RestoreClosesLast(r: Router, original: Candidate, stage: nat, effect: bool)
    ensures var after := RestoreTo(r, original, stage, effect); after.open != r.open ==> Verified(original, after)
  {
  }

  /** The same of an attempt that an exception ends, except that its transaction stays open. */
  lemma EscapeInOrder(r: Router, original: Candidate, c: Candidate, stage: nat, effect: bool)
    ensures var after := Attempt(r, original, c, Escapes(stage, effect)).router;
      && (after.keys != r.keys ==> after.open)
      && (after.running != r.running ==> after.keys == r.keys[c.proto := c.key])
      && (after.active != r.active ==> after.running == r.running[c.proto := c.key])
  {
  }

  lemma RestoreKeepsKey(r: Router, original: Candidate, how: Restore)
    ensures RestoreOriginal(r, original, how).keys in {r.keys, r.keys[original.proto := original.key]}
  {
  }

  lemma KeysInHand(r: Router, c: Candidate, go: Try)
    requires Rejected(go)
    ensures InHand(r, c, go).keys == if Installs(go) then r.keys[c.proto := c.key] else r.keys
  {
  }

  /** An attempt is counted as an installation exactly if it gives the protocol the candidate's key; only the restore
      changes it again. */
  lemma InstallsExactly(r: Router, original: Candidate, c: Candidate, go: Try)
    ensures var keys := if Installs(go) then r.keys[c.proto := c.key] else r.keys;
      Attempt(r, original, c, go).router.keys in {keys, keys[original.proto := original.key]}
    ensures !Rejected(go) ==>
              Attempt(r, original, c, go).router.keys == if Installs(go) then r.keys[c.proto := c.key] else r.keys
  {
    if Rejected(go) {
      RestoredFrom(r, original, c, go);
      KeysInHand(r, c, go);
      RestoreKeepsKey(InHand(r, c, go), original, go.restore);
    }
  }

  /** An exception leaves the loop as one, a confirmed candidate as a switch, anything else that ends it as neither. */
  lemma ExitExactly(r: Router, original: Candidate, c: Candidate, go: Try)
    requires Attempt(r, original, c, go).Ends?
    ensures var exit := Attempt(r, original, c, go).exit;
      (exit == Raised <==> go.Escapes? || (go.Blocked? && go.raises)) && (exit == Switched <==> go.Confirmed?)
  {
  }

  lemma {:induction false} WithoutKeeps(candidates: seq<Candidate>, c: Candidate, d: Candidate)
    ensures d in Without(candidates, c) <==> d in candidates && d != c
  {
    if candidates != [] { WithoutKeeps(candidates[1..], c, d); }
  }

  /** A run installs given candidates only, and none of them twice. */
  lemma {:induction false} InstallsOnce(r: Router, original: Candidate, remaining: seq<Candidate>, attempts: nat,
                                        limit: nat, turns: seq<Turn>, final: Restore)
    ensures var installs := CandidateLoop(r, original, remaining, attempts, limit, turns, final).installs;
      NoRepeats(installs) && forall d :: d in installs ==> d in remaining
    decreases |turns|
  {
    if LoopStops(remaining, attempts, limit, turns) {
      StoppedLoop(r, original, remaining, attempts, limit, turns, final);
    } else {
      TurnedLoop(r, original, remaining, attempts, limit, turns, final);
      var c, go := turns[0].pick.value, turns[0].go;
      var step := Attempt(r, original, c, go);
      if step.GoesOn? {
        var left := Without(remaining, c);
        InstallsOnce(step.router, original, left, attempts + 1, limit, turns[1..], final);
        forall d ensures d in left <==> d in remaining && d != c { WithoutKeeps(remaining, c, d); }
      }
    }
  }

  // The loop goes past this turn: a candidate is tried, fails, and the original key is restored.
  predicate FailsAndRestores(go: Try) {
    (go.InstallFails? || go.NotConfirmed? || go.NotServed?) && go.restore.Restores?
  }

  lemma {:induction false} StillThere(candidates: seq<Candidate>, c: Candidate, d: Candidate)
    requires c != d && d in candidates
    ensures d in Without(candidates, c)
  {
    if candidates[0] != d { StillThere(candidates[1..], c, d); }
  }

  /** A candidate that is confirmed after others failed, within the allowed number, is switched to. */
  lemma {:induction false} ConfirmedIsTaken(r: Router, original: Candidate, remaining: seq<Candidate>,
                                            tried: seq<Candidate>,
                                            attempts: nat, limit: nat, turns: seq<Turn>, final: Restore)
    requires tried != [] && NoRepeats(tried) && |turns| == |tried| && attempts + |tried| <= limit
    requires forall i :: 0 <= i < |tried| ==> tried[i] in remaining && turns[i].pick == Some(tried[i])
    requires forall i :: 0 <= i < |tried| - 1 ==> FailsAndRestores(turns[i].go)
    requires turns[|tried| - 1].go.Confirmed?
    ensures var run := CandidateLoop(r, original, remaining, attempts, limit, turns, final);
      run.exit == Switched && Verified(tried[|tried| - 1], run.router)
      && run.router.open == !turns[|tried| - 1].go.cleared
    decreases |turns|
  {
    if |tried| > 1 {
      forall i | 0 <= i < |tried| - 1 ensures tried[1..][i] in Without(remaining, tried[0]) {
        assert tried[0] != tried[i + 1];
        StillThere(remaining, tried[0], tried[i + 1]);
      }
      var after := Attempt(r, original, tried[0], turns[0].go);
      assert FailsAndRestores(turns[0].go) && after.GoesOn?;
      ConfirmedIsTaken(after.router, original, Without(remaining, tried[0]), tried[1..], attempts + 1, limit,
                       turns[1..], final);
    }
  }

  // The last candidate of another protocol that was installed for it, if any.
  predicate Foreign(keys: map<Proto, Key>, mode: Proto, installs: seq<Candidate>, p: Proto) {
    && p != mode
    && (exists i :: && 0 <= i < |installs| && installs[i].proto == p
                    && (forall j :: i < j < |installs| ==> installs[j].proto != p)
                    && !(p in keys && keys[p] == installs[i].key))
  }

  lemma {:induction false} ResidueAt(keys: map<Proto, Key>, mode: Proto, installs: seq<Candidate>, p: Proto)
    requires p != mode
    ensures var residue := Residue(keys, mode, installs);
      if exists i :: 0 <= i < |installs| && installs[i].proto == p
      then exists i :: && 0 <= i < |installs| && installs[i].proto == p
                       && (forall j :: i < j < |installs| ==> installs[j].proto != p)
                       && p in residue && residue[p] == installs[i].key
      else (p in residue <==> p in keys) && (p in keys ==> residue[p] == keys[p])
  {
    if installs != [] {
      var n := |installs| - 1;
      var front := installs[..n];
      ResidueAt(keys, mode, front, p);
      if installs[n].proto != p && exists i :: 0 <= i < n && installs[i].proto == p {
        assert exists i :: 0 <= i < n && front[i].proto == p;
        var i :| 0 <= i < n && front[i].proto == p && (forall j :: i < j < n ==> front[j].proto != p)
                 && p in Residue(keys, mode, front) && Residue(keys, mode, front)[p] == front[i].key;
        assert forall j :: i < j < |installs| ==> installs[j].proto != p;
        assert installs[i] == front[i];
      }
    }
  }

  /** "Restored" puts every key back exactly when no other protocol was left with a candidate's key. */
  lemma RestoredExactly(keys: map<Proto, Key>, mode: Proto, installs: seq<Candidate>)
    requires mode in keys
    ensures Residue(keys, mode, installs) == keys <==> forall p :: !Foreign(keys, mode, installs, p)
    ensures (forall i :: 0 <= i < |installs| ==> installs[i].proto == mode) ==> Residue(keys, mode, installs) == keys
  {
    var residue := Residue(keys, mode, installs);
    ResidueKeeps(keys, mode, installs);
    forall p
      ensures Foreign(keys, mode, installs, p) <==>
                !((p in residue <==> p in keys) && (p in keys ==> residue[p] == keys[p]))
    {
      if p != mode { ResidueAt(keys, mode, installs, p); }
    }
    if forall p :: !Foreign(keys, mode, installs, p) {
      assert residue == keys;
    }
    if forall i :: 0 <= i < |installs| ==> installs[i].proto == mode {
      assert forall p :: !Foreign(keys, mode, installs, p);
    }
  }

  // A candidate of another protocol fails and is "rolled back": its protocol keeps the failed key.
  lemma CrossProtocolExample()
    ensures var r := Router(map["vless" := "a", "trojan" := "b"], map[], map[], false);
      var c := Candidate("trojan", "x");
      var run := SwitchPhase(r, "vless", [c], 1, [Turn(Some(c), NotConfirmed(true, Restores))], Restores);
      run.exit == NotSwitched && !run.router.open && run.router.keys["trojan"] == "x"
  {
  }
}
