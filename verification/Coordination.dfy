/**
 Intent arbitration (ApplyCoordinator in app/proxy_apply_coordinator.py) under every interleaving.

 The intent file is read and written only under the intent lock, so each access is one step of the agent
 (a thread of a process) that takes it; the commit guard keeps that lock for a whole body.  Both locks are
 ProcessLock locks: one holder, reentrant.  `with` blocks nest, so a guard body ends before its lock does.
 */
module Coordination {
  import opened Wrappers
  import opened ProcessLock

  datatype Ticket = Ticket(generation: nat, manualEpoch: nat)

  datatype Intent = Intent(generation: nat, manualEpoch: nat, pending: Option<nat>)

  // `accepted` is the ticket of the open transaction of the execution lock's holder.
  datatype State = State(intent: Intent, exec: Option<Agent>, depth: nat, accepted: Option<Ticket>,
                         section: Option<Agent>, sections: nat, guarded: Option<Ticket>)

  const NO_INTENT := Intent(0, 0, None)

  const IDLE := State(NO_INTENT, None, 0, None, None, 0, None)

  datatype Action =
    | TakeExecution(a: Agent)
    | DropExecution(a: Agent)
    | RequestManual(a: Agent)
    | CancelManual(a: Agent, ticket: Ticket)
    | Accept(a: Agent, ticket: Ticket, manual: bool)
    | EnterGuard(a: Agent, ticket: Ticket)
    | LeaveGuard(a: Agent)
    | RecoverAbandoned(a: Agent, floor: nat)
    | Die(a: Agent)

  function TicketOf(intent: Intent): Ticket {
    Ticket(intent.generation, intent.manualEpoch)
  }

  predicate IsCurrent(s: State, t: Ticket) {
    t == TicketOf(s.intent)
  }

  function Requested(intent: Intent): Intent {
    Intent(intent.generation + 1, intent.manualEpoch + 1, Some(intent.generation + 1))
  }

  function Cancelled(intent: Intent, t: Ticket): Intent {
    if intent.pending == Some(t.generation) then intent.(pending := None) else intent
  }

  function Recovered(intent: Intent, floor: nat): Intent {
    Intent(Max(intent.generation, floor) + 1, intent.manualEpoch + 1, None)
  }

  // The lock is free or this agent already has it.
  predicate Free(holder: Option<Agent>, a: Agent) {
    holder == None || holder == Some(a)
  }

  predicate Accepts(s: State, a: Agent, t: Ticket, manual: bool) {
    && s.exec == Some(a) && Free(s.section, a) && IsCurrent(s, t)
    && s.intent.pending == (if manual then Some(t.generation) else None)
  }

  // One step; an agent that would have to wait, or that the program refuses, changes nothing.
  function Do(s: State, action: Action): State {
    match action
    case TakeExecution(a) =>
      if Free(s.exec, a) then s.(exec := Some(a), depth := s.depth + 1) else s
    case DropExecution(a) =>
      if s.exec != Some(a) || s.depth == 0 || (s.depth == 1 && s.section == Some(a)) then s
      else if s.depth > 1 then s.(depth := s.depth - 1)
      else s.(exec := None, depth := 0, accepted := None)
    case RequestManual(a) =>
      if Free(s.section, a) then s.(intent := Requested(s.intent)) else s
    case CancelManual(a, t) =>
      if Free(s.section, a) then s.(intent := Cancelled(s.intent, t)) else s
    case Accept(a, t, manual) =>
      if !Accepts(s, a, t, manual) then s
      else
        var intent := if manual then s.intent else s.intent.(generation := s.intent.generation + 1);
        s.(intent := intent, accepted := Some(TicketOf(intent)))
    case EnterGuard(a, t) =>
      if s.exec == Some(a) && Free(s.section, a) && IsCurrent(s, t)
      then s.(section := Some(a), sections := s.sections + 1, guarded := Some(t)) else s
    case LeaveGuard(a) =>
      if s.section != Some(a) then s
      else if s.sections > 1 then s.(sections := s.sections - 1)
      else s.(section := None, sections := 0, guarded := None)
    case RecoverAbandoned(a, floor) =>
      if Free(s.exec, a) && Free(s.section, a) then s.(intent := Recovered(s.intent, floor)) else s
    case Die(a) =>
      var s1 := if s.exec == Some(a) then s.(exec := None, depth := 0, accepted := None) else s;
      if s1.section == Some(a) then s1.(section := None, sections := 0, guarded := None) else s1
  }

  function Play(s: State, actions: seq<Action>): State {
    if actions == [] then s else Do(Play(s, actions[..|actions| - 1]), actions[|actions| - 1])
  }

  // The step changes the epoch: a manual request or a startup recovery that is not kept waiting.
  predicate Supersedes(s: State, action: Action) {
    match action
    case RequestManual(a) => Free(s.section, a)
    case RecoverAbandoned(a, _) => Free(s.exec, a) && Free(s.section, a)
    case _ => false
  }

  function Superseded(s: State, actions: seq<Action>): nat {
    if actions == [] then 0
    else
      var before := Play(s, actions[..|actions| - 1]);
      Superseded(s, actions[..|actions| - 1]) + if Supersedes(before, actions[|actions| - 1]) then 1 else 0
  }

  // What holds between any two steps.  A transaction's ticket can only be overtaken by a newer epoch.
  ghost predicate Arbitrated(s: State) {
    && (s.intent.pending == None || s.intent.pending == Some(s.intent.generation))
    && (s.exec == None <==> s.depth == 0) && (s.exec == None ==> s.accepted == None)
    && (s.section == None <==> s.sections == 0) && (s.section == None <==> s.guarded == None)
    && (s.section.Some? ==> s.exec == s.section)
    && (s.accepted.Some? ==>
          s.accepted.value == TicketOf(s.intent) || s.accepted.value.manualEpoch < s.intent.manualEpoch)
  }

  lemma StepArbitrated(s: State, action: Action)
    requires Arbitrated(s)
    ensures Arbitrated(Do(s, action))
    ensures var after := Do(s, action).intent;
      && s.intent.manualEpoch + (if Supersedes(s, action) then 1 else 0) == after.manualEpoch
      && (TicketOf(after) == TicketOf(s.intent) || s.intent.generation < after.generation)
  {
  }

  /** Over every interleaving: no manual request is pending or the newest generation is; one agent at most is
      in a guard and it holds the execution lock; the epoch counts the superseding steps; the generation
      grows whenever the ticket changes. */
  lemma {:induction false} EveryRunArbitrates(s: State, actions: seq<Action>)
    requires Arbitrated(s)
    ensures var after := Play(s, actions);
      && Arbitrated(after)
      && after.intent.manualEpoch == s.intent.manualEpoch + Superseded(s, actions)
      && (TicketOf(after.intent) == TicketOf(s.intent) || s.intent.generation < after.intent.generation)
  {
    if actions != [] {
      EveryRunArbitrates(s, actions[..|actions| - 1]);
      StepArbitrated(Play(s, actions[..|actions| - 1]), actions[|actions| - 1]);
    }
  }

  /** A ticket that stops being current never becomes current again. */
  lemma StaleForever(s: State, t: Ticket, first: seq<Action>, later: seq<Action>)
    requires Arbitrated(s) && IsCurrent(s, t)
    requires !IsCurrent(Play(s, first), t)
    ensures !IsCurrent(Play(Play(s, first), later), t)
  {
    EveryRunArbitrates(s, first);
    EveryRunArbitrates(Play(s, first), later);
  }

  /** No transaction is accepted and no guard body starts on a ticket issued before a later manual request
      (or recovery), however the steps in between are interleaved. */
  lemma OvertakenTicketIsRefused(s: State, t: Ticket, actions: seq<Action>, a: Agent, manual: bool)
    requires Arbitrated(s) && IsCurrent(s, t) && Superseded(s, actions) > 0
    ensures var after := Play(s, actions);
      Do(after, EnterGuard(a, t)) == after && Do(after, Accept(a, t, manual)) == after
  {
    EveryRunArbitrates(s, actions);
  }

  function Actor(action: Action): Agent { action.a }

  predicate TouchesIntent(action: Action) {
    action.RequestManual? || action.CancelManual? || action.Accept? || action.RecoverAbandoned?
  }

  /** While one agent is in a guard body, no step of anyone else changes the intent, takes the execution lock
      from it or opens another guard; the ticket it checked stays current to the end of the body. */
  lemma {:induction false} GuardBodyIsUndisturbed(s: State, a: Agent, t: Ticket, actions: seq<Action>)
    requires Arbitrated(s) && s.exec == Some(a) && Free(s.section, a) && IsCurrent(s, t)
    requires forall i :: 0 <= i < |actions| && Actor(actions[i]) == a ==>
      !TouchesIntent(actions[i]) && !actions[i].LeaveGuard? && !actions[i].Die? && !actions[i].EnterGuard?
    ensures var inside := Do(s, EnterGuard(a, t)); var after := Play(inside, actions);
      && after.intent == s.intent && IsCurrent(after, t)
      && after.exec == Some(a) && after.section == Some(a) && after.sections == inside.sections
  {
    if actions != [] {
      GuardBodyIsUndisturbed(s, a, t, actions[..|actions| - 1]);
      var inside := Do(s, EnterGuard(a, t));
      StepArbitrated(s, EnterGuard(a, t));
      EveryRunArbitrates(inside, actions[..|actions| - 1]);
      assert Actor(actions[|actions| - 1]) == a ==> !TouchesIntent(actions[|actions| - 1]);
    }
  }

  // The holder ends what it had open at this depth of the execution lock: it dies, or it releases the lock once more
  // than it took it since.
  predicate EndsIn(s: State, a: Agent, depth: nat, action: Action) {
    action == Die(a) || (action == DropExecution(a) && s.depth <= depth)
  }

  // No action of the run is such an end; nested releases, and whatever others do, are not.
  ghost predicate StaysOpen(s: State, a: Agent, actions: seq<Action>) {
    forall i :: 0 <= i < |actions| ==> !EndsIn(Play(s, actions[..i]), a, s.depth, actions[i])
  }

  lemma StaysOpenBefore(s: State, a: Agent, actions: seq<Action>)
    requires actions != [] && StaysOpen(s, a, actions)
    ensures StaysOpen(s, a, actions[..|actions| - 1])
    ensures !EndsIn(Play(s, actions[..|actions| - 1]), a, s.depth, actions[|actions| - 1])
  {
    var front := actions[..|actions| - 1];
    forall i | 0 <= i < |front| ensures !EndsIn(Play(s, front[..i]), a, s.depth, front[i]) {
      assert front[..i] == actions[..i] && front[i] == actions[i];
    }
  }

  // One step while a transaction is open.
  lemma OpenStep(s: State, a: Agent, depth: nat, action: Action)
    requires Arbitrated(s) && s.exec == Some(a) && s.accepted.Some? && s.depth >= depth > 0
    requires !EndsIn(s, a, depth, action)
    ensures var after := Do(s, action);
      && after.exec == Some(a) && after.depth >= depth && after.accepted.Some?
      && (Actor(action) != a || !action.Accept? ==> after.accepted == s.accepted)
      && (IsCurrent(s, s.accepted.value) && after.accepted == s.accepted ==>
            (IsCurrent(after, s.accepted.value) <==> !Supersedes(s, action)))
  {
  }

  /** An open transaction's ticket stays current exactly until somebody requests manually (or recovers):
      no background writer and no cancellation can invalidate it while its agent keeps the execution lock. */
  lemma {:induction false} OpenTransactionStaysCurrent(s: State, a: Agent, actions: seq<Action>)
    requires Arbitrated(s) && s.exec == Some(a) && s.accepted == Some(TicketOf(s.intent)) && StaysOpen(s, a, actions)
    requires forall i :: 0 <= i < |actions| && Actor(actions[i]) == a ==> !actions[i].Accept?
    ensures var after := Play(s, actions);
      && after.exec == Some(a) && after.depth >= s.depth && after.accepted == s.accepted
      && (IsCurrent(after, s.accepted.value) <==> Superseded(s, actions) == 0)
  {
    if actions != [] {
      StaysOpenBefore(s, a, actions);
      var front, last := actions[..|actions| - 1], actions[|actions| - 1];
      OpenTransactionStaysCurrent(s, a, front);
      EveryRunArbitrates(s, front);
      OpenStep(Play(s, front), a, s.depth, last);
      StepArbitrated(Play(s, front), last);
    }
    EveryRunArbitrates(s, actions);
  }

  /** Manual priority: after a manual request, until it is withdrawn, overtaken by a newer one or recovered, nothing
      changes the intent at all, so no background transaction is accepted and the manual one still is. */
  lemma {:induction false} ManualRequestHasPriority(s: State, a: Agent, actions: seq<Action>)
    requires Arbitrated(s) && Free(s.section, a)
    requires forall i :: 0 <= i < |actions| ==>
      && !actions[i].RequestManual? && !actions[i].RecoverAbandoned?
      && (actions[i].CancelManual? ==> actions[i].ticket.generation != s.intent.generation + 1)
    ensures var after := Play(Do(s, RequestManual(a)), actions);
      && after.intent == Requested(s.intent)
      && (forall b, t :: !Accepts(after, b, t, false))
      && (after.exec == Some(a) && Free(after.section, a) ==> Accepts(after, a, TicketOf(Requested(s.intent)), true))
  {
    if actions != [] {
      ManualRequestHasPriority(s, a, actions[..|actions| - 1]);
      assert !actions[|actions| - 1].RequestManual?;
    }
  }

  lemma PlayTwo(s: State, first: Action, second: Action)
    ensures Play(s, [first, second]) == Do(Do(s, first), second)
  {
    var actions := [first, second];
    assert actions[..1] == [first] && [first][..0] == [];
    assert Play(s, actions[..1]) == Do(s, first);
  }

  /** Nothing else is refused: an agent that takes a free execution lock, or nests in its own, is accepted on the
      current ticket, a background one while nothing is pending and a manual one while its own request is. */
  lemma CurrentTicketIsAccepted(s: State, a: Agent, manual: bool)
    requires Arbitrated(s) && s.exec in {None, Some(a)} && s.section in {None, Some(a)}
    requires manual <==> s.intent.pending.Some?
    ensures var t := TicketOf(s.intent); var after := Play(s, [TakeExecution(a), Accept(a, t, manual)]);
      && after.exec == Some(a) && after.accepted == Some(TicketOf(after.intent))
      && after.intent.pending == s.intent.pending
      && after.intent.generation == s.intent.generation + (if manual then 0 else 1)
      && after.intent.manualEpoch == s.intent.manualEpoch
  {
    PlayTwo(s, TakeExecution(a), Accept(a, TicketOf(s.intent), manual));
  }

  /** Taking the execution lock and releasing it again leaves everything as it was, an outer transaction included; so
      does releasing a lock of somebody else. */
  lemma ReleaseUndoesTake(s: State, a: Agent)
    requires Arbitrated(s)
    ensures s.exec in {None, Some(a)} ==> Do(s, TakeExecution(a)).exec == Some(a)
    ensures Play(s, [TakeExecution(a), DropExecution(a)]) == s
  {
    PlayTwo(s, TakeExecution(a), DropExecution(a));
  }

  /** A guard on the current ticket is granted to the execution lock's holder, and its end gives the intent back. */
  lemma LeavingUndoesEntering(s: State, a: Agent)
    requires Arbitrated(s) && s.exec == Some(a) && s.section in {None, Some(a)}
    ensures var t := TicketOf(s.intent);
      && Do(s, EnterGuard(a, t)).section == Some(a)
      && Play(s, [EnterGuard(a, t), LeaveGuard(a)]) == if s.section.None? then s else s.(guarded := Some(t))
  {
    PlayTwo(s, EnterGuard(a, TicketOf(s.intent)), LeaveGuard(a));
  }

  lemma RequestDoes(s: State, a: Agent)
    requires s.section in {None, Some(a)}
    ensures var n := s.intent.generation + 1;
      Do(s, RequestManual(a)) == s.(intent := Intent(n, s.intent.manualEpoch + 1, Some(n)))
  {
  }

  lemma CancelDoes(s: State, a: Agent, t: Ticket)
    requires s.section in {None, Some(a)}
    ensures s.intent.pending == Some(t.generation) ==>
              Do(s, CancelManual(a, t)) == s.(intent := s.intent.(pending := None))
    ensures s.intent.pending != Some(t.generation) ==> Do(s, CancelManual(a, t)) == s
  {
  }

  /** A manual request that is withdrawn leaves nothing pending, though every earlier ticket stays invalid; to withdraw
      another one changes nothing. */
  lemma CancelUndoesRequest(s: State, a: Agent, t: Ticket)
    requires s.section in {None, Some(a)}
    ensures var n := s.intent.generation + 1;
      Play(s, [RequestManual(a), CancelManual(a, t)]) ==
      s.(intent := Intent(n, s.intent.manualEpoch + 1, if t.generation == n then None else Some(n)))
  {
    var n := s.intent.generation + 1;
    var requested := s.(intent := Intent(n, s.intent.manualEpoch + 1, Some(n)));
    PlayTwo(s, RequestManual(a), CancelManual(a, t));
    RequestDoes(s, a);
    CancelDoes(requested, a, t);
  }

  /** A recovery that is not kept waiting leaves nothing pending and begins a generation behind all known ones; one that
      is changes nothing. */
  lemma RecoveryStartsAnew(s: State, a: Agent, floor: nat)
    ensures var after := Do(s, RecoverAbandoned(a, floor));
      if s.exec in {None, Some(a)} && s.section in {None, Some(a)} then
        && after == s.(intent := after.intent) && after.intent.pending == None
        && after.intent.generation > s.intent.generation && after.intent.generation > floor
        && after.intent.manualEpoch > s.intent.manualEpoch
      else after == s
  {
  }

  /** Two agents never have transactions open at once: until its holder ends it, whatever it and the others do, an open
      transaction stays open and nobody else's is accepted. */
  lemma {:induction false} TransactionsExclude(s: State, a: Agent, actions: seq<Action>)
    requires Arbitrated(s) && s.exec == Some(a) && s.accepted.Some? && StaysOpen(s, a, actions)
    ensures var after := Play(s, actions);
      && after.exec == Some(a) && after.depth >= s.depth && after.accepted.Some?
      && forall b, t, manual :: b != a ==> !Accepts(after, b, t, manual)
  {
    if actions != [] {
      StaysOpenBefore(s, a, actions);
      var front := actions[..|actions| - 1];
      TransactionsExclude(s, a, front);
      EveryRunArbitrates(s, front);
      OpenStep(Play(s, front), a, s.depth, actions[|actions| - 1]);
    }
  }
}
