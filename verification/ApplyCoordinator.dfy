/**
 The coordinator object: tickets, the manual override, and writers that share one accepted generation when
 they nest (intent, mutation, transaction, commit_guard in app/proxy_apply_coordinator.py).
 Every method is a fixed list of Coordination steps, so its results hold between the steps of other agents too.
 */
module ApplyCoordinator {
  import opened Wrappers
  import opened Agents = ProcessLock
  import opened Coordination

  datatype Reply = Granted(ticket: Ticket) | Busy | Stale | Misuse

  // The thread-local context of one agent's intent.  `requested` is the manual ticket that its end must withdraw.
  datatype Context = Context(ticket: Ticket, manual: bool, depth: nat, requested: Option<Ticket>)

  // The steps of an accepted transaction, and of one that is refused after the lock was taken or not at all.
  function Opening(a: Agent, t: Ticket, manual: bool): seq<Action> {
    [TakeExecution(a), Accept(a, t, manual)]
  }

  class ApplyCoordinator {
    var state: State
    var contexts: map<Agent, Context>

    ghost predicate Valid()
      reads this
    {
      && Arbitrated(state)
      && forall a :: a in contexts && contexts[a].depth > 0 ==>
           state.exec == Some(a) && state.accepted == Some(contexts[a].ticket)
    }

    constructor ()
      ensures Valid() && state == IDLE && contexts == map[]
    {
      state, contexts := IDLE, map[];
    }

    method Capture(a: Agent) returns (r: Reply)
      ensures r.Granted? <==> Free(state.section, a) && state.intent.pending == None
      ensures r.Granted? ==> IsCurrent(state, r.ticket)
    {
      if state.section != None && state.section != Some(a) { return Busy; }
      if state.intent.pending != None { return Busy; }
      r := Granted(Ticket(state.intent.generation, state.intent.manualEpoch));
    }

    method RequestManual(a: Agent) returns (r: Reply)
      requires Valid()
      modifies this`state
      ensures Valid() && state == Do(old(state), Action.RequestManual(a))
      ensures r.Granted? <==> Free(old(state).section, a)
      ensures r.Granted? ==> IsCurrent(state, r.ticket) && state.intent.pending == Some(r.ticket.generation)
                             && old(state).intent.generation < r.ticket.generation
    {
      if state.section != None && state.section != Some(a) { return Busy; }
      var generation := state.intent.generation + 1;
      var epoch := state.intent.manualEpoch + 1;
      state := state.(intent := Intent(generation, epoch, Some(generation)));
      r := Granted(Ticket(generation, epoch));
    }

    method CancelManual(a: Agent, t: Ticket)
      requires Valid()
      modifies this`state
      ensures Valid() && state == Do(old(state), Action.CancelManual(a, t))
    {
      if state.section != None && state.section != Some(a) { return; }
      if state.intent.pending == Some(t.generation) {
        state := state.(intent := state.intent.(pending := None));
      }
    }

    /** Enter a transaction: take the execution lock, then check and bump under the intent lock.  A refusal
        releases the lock again and withdraws a manual request. */
    method BeginTransaction(a: Agent, t: Ticket, manual: bool) returns (r: Reply)
      requires Valid()
      requires a !in contexts || contexts[a].depth == 0
      modifies this`state
      ensures Valid()
      ensures r.Granted? <==> Free(old(state).exec, a) && Accepts(Do(old(state), TakeExecution(a)), a, t, manual)
      ensures (Free(old(state).exec, a) && Free(old(state).section, a) && t == TicketOf(old(state).intent)
               && (manual <==> old(state).intent.pending.Some?)) ==>
                r.Granted?
      ensures r.Granted? ==>
                state == Coordination.Play(old(state), Opening(a, t, manual)) && state.accepted == Some(r.ticket)
      ensures r.Granted? ==>
                IsCurrent(state, r.ticket)
                && (if manual then r.ticket == t else r.ticket.generation == t.generation + 1)
      ensures r.Granted? ==> state.exec == Some(a) && state.intent.pending == old(state).intent.pending
      ensures !r.Granted? ==> state == if manual then Do(old(state), Action.CancelManual(a, t)) else old(state)
      ensures state.section == old(state).section
    {
      ghost var before := state;
      assert Opening(a, t, manual)[..1] == [TakeExecution(a)] && [TakeExecution(a)][..0] == [];
      if state.exec != None && state.exec != Some(a) {
        if manual { CancelManual(a, t); }
        return Busy;
      }
      state := state.(exec := Some(a), depth := state.depth + 1);
      assert state == Coordination.Play(before, [TakeExecution(a)]);
      r := if state.section != None && state.section != Some(a) then Busy
           else if t != Ticket(state.intent.generation, state.intent.manualEpoch) then Stale
           else if manual && state.intent.pending != Some(t.generation) then Stale
           else if !manual && state.intent.pending != None then Busy
           else Granted(t);
      if r.Granted? {
        if !manual {
          state := state.(intent := state.intent.(generation := state.intent.generation + 1));
          r := Granted(Ticket(state.intent.generation, state.intent.manualEpoch));
        }
        state := state.(accepted := Some(r.ticket));
      } else {
        state := state.(depth := state.depth - 1, exec := if state.depth == 1 then None else state.exec);
        if manual { CancelManual(a, t); }
      }
    }

    method EndTransaction(a: Agent, t: Ticket, manual: bool)
      requires Valid() && state.exec == Some(a) && state.section == None
      requires a !in contexts || contexts[a].depth == 0
      modifies this`state
      ensures Valid()
      ensures state ==
                Coordination.Play(old(state),
                                  if manual then [DropExecution(a), Action.CancelManual(a, t)] else [DropExecution(a)])
    {
      ghost var before := state;
      ghost var closing := [DropExecution(a), Action.CancelManual(a, t)];
      assert closing[..1] == [DropExecution(a)] && [DropExecution(a)][..0] == [];
      if state.depth > 1 {
        state := state.(depth := state.depth - 1);
      } else {
        state := state.(exec := None, depth := 0, accepted := None);
      }
      assert state == Coordination.Play(before, [DropExecution(a)]);
      if manual { CancelManual(a, t); }
    }

    /** Open an intent: a nested one shares the ticket, the outermost captures one before anything is probed or, for a
        manual one, requests it.  No execution lock is taken. */
    method BeginIntent(a: Agent, manual: bool) returns (r: Reply)
      requires Valid()
      modifies this
      ensures Valid()
      ensures a in old(contexts) ==>
                state == old(state) && contexts == old(contexts) && r == if manual then Misuse
                    else Granted(old(contexts)[a].ticket)
      ensures a !in old(contexts) ==>
                (r.Granted? <==> Free(state.section, a) && (manual || old(state).intent.pending == None))
      ensures a !in old(contexts) && r.Granted? ==>
                && contexts == old(contexts)[a := Context(r.ticket, manual, 0, if manual then Some(r.ticket) else None)]
                && IsCurrent(state, r.ticket)
                && state == if manual then Do(old(state), Action.RequestManual(a)) else old(state)
      ensures a !in old(contexts) && !r.Granted? ==> state == old(state) && contexts == old(contexts)
    {
      if a in contexts { return if manual then Misuse else Granted(contexts[a].ticket); }
      if manual {
        r := RequestManual(a);
      } else {
        r := Capture(a);
      }
      if r.Granted? {
        contexts := contexts[a := Context(r.ticket, manual, 0, if manual then Some(r.ticket) else None)];
      }
    }

    /** The end of an intent withdraws the manual request it made, unless that is not pending any more. */
    method EndIntent(a: Agent)
      requires Valid() && a in contexts && contexts[a].depth == 0
      modifies this
      ensures Valid() && contexts == old(contexts) - {a}
      ensures state == match old(contexts)[a].requested
                       case None => old(state)
                       case Some(t) => Do(old(state), Action.CancelManual(a, t))
    {
      var c := contexts[a];
      contexts := contexts - {a};
      if c.requested.Some? { CancelManual(a, c.requested.value); }
    }

    /** The first writer of an intent: it is accepted only on the very ticket that the intent captured.  A refused
        manual writer withdraws the request, and the intent goes on as a background one. */
    method BeginWriter(a: Agent) returns (r: Reply)
      requires Valid() && a in contexts && contexts[a].depth == 0
      modifies this
      ensures Valid() && state.section == old(state).section
      ensures r.Granted? ==>
                && IsCurrent(old(state), old(contexts)[a].ticket)
                && contexts == old(contexts)[a := old(contexts)[a].(ticket := r.ticket, depth := 1)]
                && state == Coordination.Play(old(state), Opening(a, old(contexts)[a].ticket, old(contexts)[a].manual))
                && state.exec == Some(a) && state.accepted == Some(r.ticket) && IsCurrent(state, r.ticket)
                && state.intent.pending == (if old(contexts)[a].manual then Some(r.ticket.generation) else None)
                && r.ticket.generation == old(contexts)[a].ticket.generation + if old(contexts)[a].manual then 0 else 1
      ensures !r.Granted? ==>
                && contexts == old(contexts)[a := old(contexts)[a].(manual := false)]
                && state == if old(contexts)[a].manual then
                     Do(old(state), Action.CancelManual(a, old(contexts)[a].ticket))
                            else old(state)
    {
      var c := contexts[a];
      r := BeginTransaction(a, c.ticket, c.manual);
      contexts := contexts[a := if r.Granted? then c.(ticket := r.ticket, depth := 1) else c.(manual := false)];
    }

    /** The end of an intent's writer; the intent stays open. */
    method EndWriter(a: Agent)
      requires Valid() && state.section == None && a in contexts && contexts[a].depth > 0
      modifies this
      ensures Valid() && contexts == old(contexts)[a := old(contexts)[a].(depth := 0, manual := false)]
      ensures state ==
                Coordination.Play(old(state),
                                  if old(contexts)[a].manual then
                                    [DropExecution(a), Action.CancelManual(a, old(contexts)[a].ticket)]
                                                     else [DropExecution(a)])
    {
      var c := contexts[a];
      contexts := contexts[a := c.(depth := 0, manual := false)];
      EndTransaction(a, c.ticket, c.manual);
    }

    /** Begin a writer.  A nested writer shares the accepted ticket and changes nothing, the first one in an open intent
        is BeginWriter; outside an intent it opens one, and a refusal leaves no context, no lock and no manual request
        behind. */
    method BeginMutation(a: Agent, manual: bool) returns (r: Reply)
      requires Valid() && state.section == None
      modifies this
      ensures Valid() && state.section == None
      ensures forall b :: b in old(contexts) && b != a ==> b in contexts && contexts[b] == old(contexts)[b]
      ensures a in old(contexts) && manual ==> state == old(state) && contexts == old(contexts) && r == Misuse
      ensures a in old(contexts) && old(contexts)[a].depth > 0 && !manual ==>
                state == old(state) && contexts == old(contexts) && r == Granted(old(contexts)[a].ticket)
      ensures a in old(contexts) && old(contexts)[a].depth == 0 && !manual && r.Granted? ==>
                && IsCurrent(old(state), old(contexts)[a].ticket)
                && contexts == old(contexts)[a := old(contexts)[a].(ticket := r.ticket, depth := 1)]
                && state == Coordination.Play(old(state), Opening(a, old(contexts)[a].ticket, old(contexts)[a].manual))
                && state.accepted == Some(r.ticket)
      ensures a in old(contexts) && old(contexts)[a].depth == 0 && !manual && !r.Granted? ==>
                && contexts == old(contexts)[a := old(contexts)[a].(manual := false)]
                && state == if old(contexts)[a].manual then
                     Do(old(state), Action.CancelManual(a, old(contexts)[a].ticket))
                            else old(state)
      ensures a !in old(contexts) && r.Granted? ==>
                && a in contexts && contexts[a].depth == 1 && contexts[a].ticket == r.ticket
                && state.exec == Some(a) && state.accepted == Some(r.ticket) && IsCurrent(state, r.ticket)
                && old(state).intent.generation < r.ticket.generation
                && state.intent.pending == (if manual then Some(r.ticket.generation) else None)
      ensures a !in old(contexts) && !r.Granted? ==>
                && contexts == old(contexts) && state.exec == old(state).exec && state.depth == old(state).depth
                && state.intent == if manual then Requested(old(state).intent).(pending := None) else old(state).intent
    {
      if a in contexts {
        if manual { return Misuse; }
        if contexts[a].depth > 0 { return Granted(contexts[a].ticket); }
        r := BeginWriter(a);
        return;
      }
      r := BeginIntent(a, manual);
      if !r.Granted? { return; }
      r := BeginWriter(a);
      if !r.Granted? { EndIntent(a); }
    }

    /** End the outermost writer together with the intent it opened. */
    method EndMutation(a: Agent)
      requires Valid() && state.section == None && a in contexts && contexts[a].depth > 0
      modifies this
      ensures Valid() && contexts == old(contexts) - {a}
      ensures TicketOf(state.intent) == TicketOf(old(state).intent)
      ensures state.exec == (if old(state).depth == 1 then None else Some(a)) && state.depth == old(state).depth - 1
      ensures old(contexts)[a].requested == Some(old(contexts)[a].ticket) ==>
                state.intent.pending != Some(old(contexts)[a].ticket.generation)
      ensures old(contexts)[a].requested == None && !old(contexts)[a].manual ==> state.intent == old(state).intent
    {
      ghost var before, c := state, contexts[a];
      assert [DropExecution(a), Action.CancelManual(a, c.ticket)][..1] == [DropExecution(a)] &&
             [DropExecution(a)][..0] == [];
      EndWriter(a);
      EndIntent(a);
    }

    /** The commit guard: only the execution lock's owner, and only on the current ticket. */
    method BeginCommitGuard(a: Agent, t: Ticket) returns (r: Reply)
      requires Valid()
      modifies this`state
      ensures Valid() && state == Do(old(state), EnterGuard(a, t))
      ensures r.Granted? <==> old(state).exec == Some(a) && Free(old(state).section, a) && IsCurrent(old(state), t)
      ensures r.Granted? ==> state.section == Some(a) && IsCurrent(state, t)
    {
      if state.exec != Some(a) { return Misuse; }
      if state.section != None && state.section != Some(a) { return Busy; }
      if t != Ticket(state.intent.generation, state.intent.manualEpoch) { return Stale; }
      state := state.(section := Some(a), sections := state.sections + 1, guarded := Some(t));
      r := Granted(t);
    }

    method EndCommitGuard(a: Agent)
      requires Valid() && state.section == Some(a)
      modifies this`state
      ensures Valid() && state == Do(old(state), LeaveGuard(a))
    {
      if state.sections > 1 {
        state := state.(sections := state.sections - 1);
      } else {
        state := state.(section := None, sections := 0, guarded := None);
      }
    }

    /** Startup recovery: every ticket issued before is invalid afterwards and nothing is pending. */
    method RecoverAbandonedManual(a: Agent, floor: nat) returns (done: bool)
      requires Valid()
      modifies this`state
      ensures Valid() && state == Do(old(state), RecoverAbandoned(a, floor))
      ensures done <==> Free(old(state).exec, a) && Free(old(state).section, a)
      ensures done ==> state.intent.pending == None && state.intent.generation > floor
                       && forall t: Ticket :: t.generation <= old(state).intent.generation ==> !IsCurrent(state, t)
    {
      if (state.exec != None && state.exec != Some(a)) || (state.section != None && state.section != Some(a)) {
        return false;
      }
      var g := if state.intent.generation < floor then floor else state.intent.generation;
      state := state.(intent := Intent(g + 1, state.intent.manualEpoch + 1, None));
      done := true;
    }
  }
}
