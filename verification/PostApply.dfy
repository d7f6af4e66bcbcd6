/**
 The coordinator of service checks after a key change (app/post_apply_runtime.py): the lock-protected parts of
 schedule, of the worker's loop and of its end, and every interleaving of callers and worker threads over them.
 */
module PostApply {
  import opened Wrappers

  type Proto = string
  type Wid = nat

  // One accepted schedule call; `id` tells calls apart and stands for the call's resume request.
  datatype Work = Work(proto: Proto, key: string, generation: Option<int>, id: nat)

  // The fields under the lock.  The resume flag is set exactly when some call's request is in `resume`.
  datatype Core = Core(pending: map<Proto, Work>, worker: Option<Wid>, resume: set<nat>)

  const IDLE := Core(map[], None, {})

  // What the end of a worker leaves to do outside the lock.
  datatype Ended = Ended(core: Core, successor: Option<Wid>, resume: set<nat>)

  function Scheduled(c: Core, work: Work, resume: bool, next: Wid): Core {
    Core(c.pending[work.proto := work], if c.worker.None? then Some(next) else c.worker,
         if resume then c.resume + {work.id} else c.resume)
  }

  function StartFailed(c: Core, w: Wid): Core {
    if c.worker == Some(w) then IDLE else c
  }

  function Finished(c: Core, w: Wid, stopped: bool, next: Wid): Ended {
    if c.worker != Some(w) then Ended(c, None, {})
    else if c.pending != map[] && !stopped then Ended(c.(worker := Some(next)), Some(next), {})
    else Ended(c.(worker := None, resume := {}), None, c.resume)
  }

  class PostApplyCoordinator {
    var pending: map<Proto, Work>
    var worker: Option<Wid>
    var resumeRequested: bool
    ghost var requests: set<nat>

    ghost predicate Valid()
      reads this
    {
      resumeRequested <==> requests != {}
    }

    ghost function Contents(): Core
      reads this
    {
      Core(pending, worker, requests)
    }

    constructor ()
      ensures Valid() && Contents() == IDLE
    {
      pending, worker, resumeRequested, requests := map[], None, false, {};
    }

    // The locked part of schedule; the thread to start, if this call must start one.
    method Schedule(work: Work, resume: bool, next: Wid) returns (toStart: Option<Wid>)
      requires Valid()
      modifies this
      ensures Valid() && Contents() == Scheduled(old(Contents()), work, resume, next)
      ensures toStart == if old(worker).None? then Some(next) else None
    {
      pending := pending[work.proto := work];
      resumeRequested := resumeRequested || resume;
      requests := if resume then requests + {work.id} else requests;
      toStart := None;
      if worker.None? {
        worker, toStart := Some(next), Some(next);
      }
    }

    // The locked part after a thread could not be started.
    method ForgetWorker(w: Wid)
      requires Valid()
      modifies this
      ensures Valid() && Contents() == StartFailed(old(Contents()), w)
    {
      if worker == Some(w) {
        worker, pending, resumeRequested, requests := None, map[], false, {};
      }
    }

    // The locked part of the worker's loop: None ends it.
    method TakeAll() returns (batch: Option<map<Proto, Work>>)
      modifies this`pending
      ensures pending == map[]
      ensures batch == if old(pending) == map[] then None else Some(old(pending))
    {
      if pending == map[] { return None; }
      batch := Some(pending);
      pending := map[];
    }

    // The locked part of the worker's end: a successor to start, or a resume to call.
    method FinishWorker(w: Wid, stopped: bool, next: Wid) returns (successor: Option<Wid>, resumes: bool)
      requires Valid()
      modifies this
      ensures Valid()
      ensures var e := Finished(old(Contents()), w, stopped, next);
        Contents() == e.core && successor == e.successor && (resumes <==> e.resume != {})
    {
      successor, resumes := None, false;
      if worker == Some(w) {
        worker := None;
        resumes := resumeRequested;
        ghost var due := requests;
        resumeRequested, requests := false, {};
        if pending != map[] && !stopped {
          resumeRequested, requests := resumes, due;
          resumes := false;
          successor := Some(next);
          worker := successor;
        }
      }
    }
  }

  // ---------------------------------------------------------------------------------------------
  // Every interleaving.

  // Where a worker thread is.  `parent` is the worker whose end created it, None for a caller of schedule.
  datatype Phase =
    | Created(parent: Option<Wid>)
    | AtHead
    | Probing
    | Finishing
    | Ending(successor: Option<Wid>, resume: set<nat>)
    | Gone
    | NeverStarted

  // The history: per protocol the newest call, the calls taken by a worker, the calls and requests that a failed
  // start discarded, and the requests that a resume call answered.
  datatype World = World(core: Core, threads: map<Wid, Phase>, next: Wid, stopped: bool, calls: nat, asked: set<nat>,
                         newest: map<Proto, Work>, taken: set<Work>, discarded: set<Work>, forgotten: set<nat>,
                         answered: set<nat>)

  datatype Event =
    | Call(proto: Proto, key: string, generation: Option<int>, resume: bool)
    | StartCalled(w: Wid, works: bool)
    | Take(w: Wid)
    | EndBatch(w: Wid)
    | Quit(w: Wid)
    | Finish(w: Wid)
    | StartSuccessor(w: Wid, works: bool)
    | Resume(w: Wid)
    | Stop

  function At(w: World, t: Wid): Phase {
    if t in w.threads then w.threads[t] else Gone
  }

  function Move(w: World, t: Wid, phase: Phase): World {
    w.(threads := w.threads[t := phase])
  }

  function Works(pending: map<Proto, Work>): set<Work> {
    set p | p in pending :: pending[p]
  }

  function Next(w: World, event: Event): World {
    match event
    case Call(proto, key, generation, resume) =>
      if proto == "" || key == "" then w
      else
        var work := Work(proto, key, generation, w.calls);
        var c := Scheduled(w.core, work, resume, w.next);
        var w1 := w.(core := c, calls := w.calls + 1, newest := w.newest[proto := work],
                     asked := if resume then w.asked + {w.calls} else w.asked);
        if w.core.worker.None? then Move(w1.(next := w.next + 1), w.next, Created(None)) else w1
    case StartCalled(t, works) =>
      if At(w, t) != Created(None) then w
      else if works then Move(w, t, AtHead)
      else
        var c := StartFailed(w.core, t);
        var hit := w.core.worker == Some(t);
        Move(w.(core := c, discarded := if hit then w.discarded + Works(w.core.pending) else w.discarded,
                forgotten := if hit then w.forgotten + w.core.resume else w.forgotten), t, Gone)
    case Take(t) =>
      if At(w, t) != AtHead then w
      else if w.core.pending == map[] then Move(w, t, Finishing)
      else Move(w.(core := w.core.(pending := map[]), taken := w.taken + Works(w.core.pending)), t, Probing)
    case EndBatch(t) =>
      if At(w, t) == Probing then Move(w, t, AtHead) else w
    case Quit(t) =>
      if w.stopped && At(w, t) in {AtHead, Probing} then Move(w, t, Finishing) else w
    case Finish(t) =>
      if At(w, t) != Finishing then w
      else
        var e := Finished(w.core, t, w.stopped, w.next);
        var w1 := Move(w.(core := e.core), t, Ending(e.successor, e.resume));
        if e.successor.Some? then Move(w1.(next := w.next + 1), w.next, Created(Some(t))) else w1
    case StartSuccessor(t, works) =>
      if !At(w, t).Ending? || At(w, t).successor.None? then w
      else
        var s := At(w, t).successor.value;
        if works then Move(Move(w, s, AtHead), t, Ending(None, At(w, t).resume))
        else Move(Move(w, s, NeverStarted), t, Gone)
    case Resume(t) =>
      if At(w, t).Ending? && At(w, t).successor.None? then
        Move(w.(answered := w.answered + At(w, t).resume), t, Gone)
      else w
    case Stop => w.(stopped := true)
  }

  const START := World(IDLE, map[], 0, false, 0, {}, map[], {}, {}, {}, {})

  function Play(events: seq<Event>): World {
    if events == [] then START else Next(Play(events[..|events| - 1]), events[|events| - 1])
  }

  predicate Live(p: Phase) {
    p.Created? || p.AtHead? || p.Probing? || p.Finishing?
  }

  // Exactly the registered worker is live (or could not be started), and work waits only for a registered worker.
  ghost predicate Sound(w: World) {
    && (forall t :: t in w.threads ==> t < w.next)
    && (forall t :: t in w.threads && Live(w.threads[t]) ==> w.core.worker == Some(t))
    && (w.core.worker.Some? ==> Live(At(w, w.core.worker.value)) || At(w, w.core.worker.value) == NeverStarted)
    && (w.core.pending != map[] && !w.stopped ==> w.core.worker.Some?)
    && (w.core.resume != {} ==> w.core.worker.Some?)
    && (forall t :: t in w.threads && w.threads[t].Ending? && w.threads[t].successor.Some? ==>
          At(w, w.threads[t].successor.value) == Created(Some(t)) && w.threads[t].resume == {})
    && (forall t :: t in w.threads && w.threads[t].Created? && w.threads[t].parent.Some? ==>
          At(w, w.threads[t].parent.value) == Ending(Some(t), {}))
  }

  // Every call's work and every request is somewhere.
  ghost predicate Accounted(w: World) {
    WorkIsSomewhere(w) && RequestIsSomewhere(w)
  }

  ghost predicate WorkIsSomewhere(w: World) {
    && (forall p :: p in w.newest ==> w.newest[p].proto == p)
    && (forall p :: p in w.core.pending ==> p in w.newest && w.core.pending[p] == w.newest[p])
    && (forall p :: p in w.newest ==> p in w.core.pending || w.newest[p] in w.taken || w.newest[p] in w.discarded)
  }

  ghost predicate RequestIsSomewhere(w: World) {
    forall r :: r in w.asked ==> r in w.core.resume || Carried(w, r) || r in w.answered || r in w.forgotten
  }

  ghost predicate Carried(w: World, r: nat) {
    exists t :: t in w.threads && w.threads[t].Ending? && r in w.threads[t].resume
  }

  lemma CallIsSound(w: World, event: Event)
    requires Sound(w) && event.Call?
    ensures Sound(Next(w, event))
  {
  }

  lemma StartIsSound(w: World, event: Event)
    requires Sound(w) && event.StartCalled?
    ensures Sound(Next(w, event))
  {
  }

  lemma LoopIsSound(w: World, event: Event)
    requires Sound(w) && (event.Take? || event.EndBatch? || event.Quit? || event.Stop?)
    ensures Sound(Next(w, event))
  {
  }

  lemma FinishIsSound(w: World, event: Event)
    requires Sound(w) && event.Finish?
    ensures Sound(Next(w, event))
  {
  }

  // A successor that is to be started is the registered worker, so no other thread has one.
  lemma OneSuccessor(w: World, t: Wid)
    requires Sound(w) && At(w, t).Ending? && At(w, t).successor.Some?
    ensures w.core.worker == At(w, t).successor && At(w, t).successor.value != t && At(w, t).resume == {}
    ensures forall x :: x in w.threads && w.threads[x].Ending? && w.threads[x].successor.Some? ==> x == t
  {
    assert At(w, At(w, t).successor.value) == Created(Some(t));
    forall x | x in w.threads && w.threads[x].Ending? && w.threads[x].successor.Some? ensures x == t {
      assert At(w, w.threads[x].successor.value) == Created(Some(x));
    }
  }

  // The registered worker moves on, or never starts, and the thread before it has no successor any more.
  lemma HandedOver(w: World, s: Wid, worker: Phase, t: Wid, ended: Phase)
    requires Sound(w) && s != t && s in w.threads && t in w.threads && w.core.worker == Some(s)
    requires ended == Gone || (ended.Ending? && ended.successor.None?)
    requires forall x :: x in w.threads && w.threads[x].Ending? && w.threads[x].successor.Some? ==> x == t
    requires worker == AtHead || worker == NeverStarted
    ensures Sound(Move(Move(w, s, worker), t, ended))
  {
    var after := Move(Move(w, s, worker), t, ended);
    forall x | x in after.threads ensures x < after.next && (Live(after.threads[x]) ==> after.core.worker == Some(x)) {
      if x != s && x != t { assert after.threads[x] == w.threads[x]; }
    }
  }

  lemma SuccessorIsSound(w: World, event: Event)
    requires Sound(w) && event.StartSuccessor?
    ensures Sound(Next(w, event))
  {
    var t := event.w;
    if At(w, t).Ending? && At(w, t).successor.Some? {
      OneSuccessor(w, t);
      var s := At(w, t).successor.value;
      if event.works {
        HandedOver(w, s, AtHead, t, Ending(None, At(w, t).resume));
      } else {
        HandedOver(w, s, NeverStarted, t, Gone);
      }
    }
  }

  lemma ResumeIsSound(w: World, event: Event)
    requires Sound(w) && event.Resume?
    ensures Sound(Next(w, event))
  {
  }

  // A request that a thread carries stays carried until that thread calls the resume.
  lemma CarriedOn(w: World, event: Event, r: nat)
    requires Sound(w) && Carried(w, r)
    ensures Carried(Next(w, event), r) || r in Next(w, event).answered
  {
    var t :| t in w.threads && w.threads[t].Ending? && r in w.threads[t].resume;
    var after := Next(w, event);
    if event != Resume(t) {
      assert t in after.threads && after.threads[t].Ending? && r in after.threads[t].resume;
    }
  }

  // The worker that ends takes the requests along or leaves them to its successor.
  lemma FinishCarries(w: World, t: Wid, r: nat)
    requires Sound(w) && r in w.core.resume
    ensures var after := Next(w, Finish(t)); r in after.core.resume || Carried(after, r)
  {
    var after := Next(w, Finish(t));
    if At(w, t) == Finishing {
      assert t in after.threads && after.threads[t].Ending?;
    }
  }

  lemma CallKeepsWork(w: World, event: Event)
    requires WorkIsSomewhere(w) && event.Call?
    ensures WorkIsSomewhere(Next(w, event))
  {
    if event.proto != "" && event.key != "" {
      var work := Work(event.proto, event.key, event.generation, w.calls);
      var after := Next(w, event);
      assert after.newest == w.newest[event.proto := work] && after.taken == w.taken && after.discarded == w.discarded;
      assert after.core.pending == w.core.pending[event.proto := work];
    }
  }

  lemma TakeKeepsWork(w: World, event: Event)
    requires WorkIsSomewhere(w) && event.Take?
    ensures WorkIsSomewhere(Next(w, event))
  {
  }

  lemma StartKeepsWork(w: World, event: Event)
    requires WorkIsSomewhere(w) && event.StartCalled?
    ensures WorkIsSomewhere(Next(w, event))
  {
  }

  lemma OthersKeepWork(w: World, event: Event)
    requires WorkIsSomewhere(w) && !event.Call? && !event.Take? && !event.StartCalled?
    ensures WorkIsSomewhere(Next(w, event))
  {
  }

  lemma StepKeepsRequests(w: World, event: Event)
    requires Sound(w) && RequestIsSomewhere(w)
    ensures RequestIsSomewhere(Next(w, event))
  {
    var after := Next(w, event);
    forall r | r in after.asked
      ensures r in after.core.resume || Carried(after, r) || r in after.answered || r in after.forgotten
    {
      if Carried(w, r) { CarriedOn(w, event, r); }
      if event.Finish? && r in w.core.resume { FinishCarries(w, event.w, r); }
    }
  }

  /** In every interleaving only the registered worker is live, work waits only for a registered worker, and every
      newest call and every resume request is accounted for. */
  lemma {:induction false} EveryRunIsSound(events: seq<Event>)
    ensures Sound(Play(events)) && Accounted(Play(events))
  {
    if events != [] {
      var before, event := Play(events[..|events| - 1]), events[|events| - 1];
      EveryRunIsSound(events[..|events| - 1]);
      match event {
        case Call(_, _, _, _) => CallIsSound(before, event);
        case StartCalled(_, _) => StartIsSound(before, event);
        case Take(_) => LoopIsSound(before, event);
        case EndBatch(_) => LoopIsSound(before, event);
        case Quit(_) => LoopIsSound(before, event);
        case Stop => LoopIsSound(before, event);
        case Finish(_) => FinishIsSound(before, event);
        case StartSuccessor(_, _) => SuccessorIsSound(before, event);
        case Resume(_) => ResumeIsSound(before, event);
      }
      if event.Call? { CallKeepsWork(before, event); }
      else if event.Take? { TakeKeepsWork(before, event); }
      else if event.StartCalled? { StartKeepsWork(before, event); }
      else { OthersKeepWork(before, event); }
      StepKeepsRequests(before, event);
    }
  }

  /** At most one thread is in the probing loop, in every interleaving. */
  lemma OneProbingThread(events: seq<Event>, s: Wid, t: Wid)
    requires Live(At(Play(events), s)) && Live(At(Play(events), t))
    ensures s == t
  {
    EveryRunIsSound(events);
  }

  /** A batch holds the newest call of each of its protocols; a worker at the head of its loop leaves none behind. */
  lemma BatchIsNewest(events: seq<Event>, t: Wid)
    ensures At(Play(events), t) == AtHead ==>
      && Next(Play(events), Take(t)).core.pending == map[]
      && forall p :: p in Play(events).core.pending ==>
           p in Play(events).newest && Play(events).newest[p] in Next(Play(events), Take(t)).taken
    ensures var w := Play(events); var after := Next(w, Take(t));
      forall x :: x in after.taken && x !in w.taken ==> x.proto in w.newest && w.newest[x.proto] == x
  {
    EveryRunIsSound(events);
  }

  ghost predicate NoFailedStart(w: World) {
    w.discarded == {} && w.forgotten == {} && forall t :: t in w.threads ==> w.threads[t] != NeverStarted
  }

  /** Once every thread is done, every protocol's newest call was taken by a worker and every resume request was
      answered, unless a thread start failed or the program stops. */
  lemma NothingIsLost(events: seq<Event>)
    requires NoFailedStart(Play(events)) && !Play(events).stopped
    requires forall t :: t in Play(events).threads ==> Play(events).threads[t] == Gone
    ensures var w := Play(events);
      && w.core == IDLE
      && (forall p :: p in w.newest ==> w.newest[p] in w.taken)
      && (forall r :: r in w.asked ==> r in w.answered)
  {
    EveryRunIsSound(events);
    var w := Play(events);
    assert w.core.worker.None?;
    forall p | p in w.newest ensures w.newest[p] in w.taken {
      assert p !in w.core.pending;
    }
    forall r | r in w.asked ensures r in w.answered {
      assert !Carried(w, r);
    }
  }

  /** Work that waits is served unless the registered worker is one whose start failed. */
  lemma WaitingIsServed(events: seq<Event>)
    requires Play(events).core.pending != map[] && !Play(events).stopped
    ensures var w := Play(events);
      w.core.worker.Some? && (Live(At(w, w.core.worker.value)) <==> At(w, w.core.worker.value) != NeverStarted)
  {
    EveryRunIsSound(events);
  }

  ghost predicate Dead(w: World, t: Wid) {
    w.core.worker == Some(t) && At(w, t) == NeverStarted
  }

  lemma StaysDead(w: World, event: Event, t: Wid)
    requires Sound(w) && Dead(w, t)
    ensures Dead(Next(w, event), t) && Next(w, event).taken == w.taken
  {
  }

  /** A successor that could not be started stays registered for good: nothing is taken any more. */
  lemma {:induction false} DeadForGood(events: seq<Event>, more: seq<Event>, t: Wid)
    requires Dead(Play(events), t)
    ensures Dead(Play(events + more), t) && Play(events + more).taken == Play(events).taken
  {
    if more == [] {
      assert events + more == events;
    } else {
      var earlier, event := more[..|more| - 1], more[|more| - 1];
      var all := events + more;
      assert all[..|all| - 1] == events + earlier && all[|all| - 1] == event;
      DeadForGood(events, earlier, t);
      EveryRunIsSound(events + earlier);
      StaysDead(Play(events + earlier), event, t);
    }
  }

  lemma PlayNext(events: seq<Event>, event: Event)
    ensures Play(events + [event]) == Next(Play(events), event)
  {
  }

  // One call, probed; the worker then finds nothing and leaves the loop.
  function OneCall(): seq<Event> {
    [Call("vless", "a", None, false)] + [StartCalled(0, true)] + [Take(0)] + [EndBatch(0)] + [Take(0)]
  }

  lemma AfterOneCall()
    ensures var w := Play(OneCall());
      w.core == Core(map[], Some(0), {}) && At(w, 0) == Finishing && w.next == 1 && !w.stopped && w.calls == 1
  {
    var e1, e2 := [Call("vless", "a", None, false)], [StartCalled(0, true)];
    PlayNext([], e1[0]);
    PlayNext(e1, e2[0]);
    PlayNext(e1 + e2, Take(0));
    PlayNext(e1 + e2 + [Take(0)], EndBatch(0));
    PlayNext(e1 + e2 + [Take(0)] + [EndBatch(0)], Take(0));
    assert [] + e1 == e1;
    assert Play(e1).core.pending.Keys == {"vless"};
  }

  // A call arrives while the worker ends, and the successor's start fails.
  lemma DeadSuccessorExample()
    ensures var w := Play(OneCall() + [Call("vless", "b", None, true)] + [Finish(0)] + [StartSuccessor(0, false)]);
      Dead(w, 1) && w.core.pending != map[]
  {
    AfterOneCall();
    var s, e := OneCall(), Call("vless", "b", None, true);
    PlayNext(s, e);
    assert "vless" in Play(s + [e]).core.pending;
    PlayNext(s + [e], Finish(0));
    PlayNext(s + [e] + [Finish(0)], StartSuccessor(0, false));
  }

  // ---------------------------------------------------------------------------------------------
  // Left to itself, a worker gets its work done.

  function PlayOn(w: World, events: seq<Event>): World
    decreases |events|
  {
    if events == [] then w else PlayOn(Next(w, events[0]), events[1..])
  }

  /** A call with an empty protocol or key is skipped; any other one replaces what waits for its protocol, leaves the
      rest waiting, has a worker, and keeps its resume request. */
  lemma CallIsQueued(w: World, proto: Proto, key: string, generation: Option<int>, resume: bool)
    ensures var after := Next(w, Call(proto, key, generation, resume));
      if proto == "" || key == "" then after == w
      else
        && after.core.pending == w.core.pending[proto := Work(proto, key, generation, w.calls)]
        && after.newest == w.newest[proto := Work(proto, key, generation, w.calls)] && after.calls == w.calls + 1
        && after.core.worker == (if w.core.worker.Some? then w.core.worker else Some(w.next))
        && (w.core.worker.None? ==> At(after, w.next) == Created(None))
        && after.core.resume == (if resume then w.core.resume + {w.calls} else w.core.resume)
        && after.asked == (if resume then w.asked + {w.calls} else w.asked)
  {
  }

  // All that waited was taken, all requests were answered, and the coordinator is idle.
  ghost predicate Served(w: World, after: World) {
    && after.core == IDLE && Works(w.core.pending) <= after.taken && w.core.resume <= after.answered
  }

  lemma EmptyHeadEnds(w: World, t: Wid)
    requires w.core.worker == Some(t) && At(w, t) in {AtHead, Finishing} && w.core.pending == map[]
    ensures var at := if At(w, t) == AtHead then Next(w, Take(t)) else w;
      var after := Next(Next(at, Finish(t)), Resume(t));
      after.core == IDLE && w.taken <= after.taken && w.core.resume <= after.answered && At(after, t) == Gone
  {
  }

  lemma {:induction false} TakenStay(w: World, events: seq<Event>)
    ensures w.taken <= PlayOn(w, events).taken && w.answered <= PlayOn(w, events).answered
    decreases |events|
  {
    if events != [] { TakenStay(Next(w, events[0]), events[1..]); }
  }

  // A started worker at the head of its loop takes everything, probes it and ends.
  lemma HeadServes(w: World, t: Wid) returns (events: seq<Event>)
    requires w.core.worker == Some(t) && At(w, t) == AtHead
    ensures Served(w, PlayOn(w, events))
    decreases w.core.pending != map[]
  {
    if w.core.pending == map[] {
      EmptyHeadEnds(w, t);
      events := [Take(t)] + [Finish(t), Resume(t)];
      StepThen(w, Take(t), [Finish(t), Resume(t)]);
      TwoSteps(Next(w, Take(t)), Finish(t), Resume(t));
    } else {
      var taken := Next(w, Take(t));
      var back := Next(taken, EndBatch(t));
      assert back.core == w.core.(pending := map[]) && Works(w.core.pending) <= back.taken;
      events := HeadServes(back, t);
      StepThen(taken, EndBatch(t), events);
      StepThen(w, Take(t), [EndBatch(t)] + events);
      TakenStay(back, events);
      events := [Take(t)] + ([EndBatch(t)] + events);
    }
  }

  lemma TwoSteps(w: World, first: Event, second: Event)
    ensures PlayOn(w, [first, second]) == Next(Next(w, first), second)
  {
    assert [first, second][1..] == [second] && [second][1..] == [];
    assert PlayOn(Next(w, first), [second]) == PlayOn(Next(Next(w, first), second), []);
  }

  lemma StepThen(w: World, first: Event, events: seq<Event>)
    ensures PlayOn(w, [first] + events) == PlayOn(Next(w, first), events)
  {
    assert ([first] + events)[1..] == events;
  }

  /** From every reachable state of a program that goes on, the registered worker's own steps, with a successor's if it
      needs one, take all that waits, answer every request and leave the coordinator idle, if its threads start. */
  lemma WorkerServes(w: World, t: Wid) returns (events: seq<Event>)
    requires Sound(w) && !w.stopped && w.core.worker == Some(t) && Live(At(w, t))
    ensures Served(w, PlayOn(w, events))
  {
    match At(w, t)
    case AtHead => events := HeadServes(w, t);
    case Created(parent) =>
      var start := if parent.None? then StartCalled(t, true) else StartSuccessor(parent.value, true);
      events := HeadServes(Next(w, start), t);
      StepThen(w, start, events);
      events := [start] + events;
    case Probing =>
      events := HeadServes(Next(w, EndBatch(t)), t);
      StepThen(w, EndBatch(t), events);
      events := [EndBatch(t)] + events;
    case Finishing => events := EndServes(w, t);
  }

  lemma EndServes(w: World, t: Wid) returns (events: seq<Event>)
    requires Sound(w) && !w.stopped && w.core.worker == Some(t) && At(w, t) == Finishing
    ensures Served(w, PlayOn(w, events))
  {
    if w.core.pending == map[] {
      EmptyHeadEnds(w, t);
      events := [Finish(t), Resume(t)];
      TwoSteps(w, Finish(t), Resume(t));
    } else {
      var ended := Next(w, Finish(t));
      assert ended.core == w.core.(worker := Some(w.next)) && At(ended, t) == Ending(Some(w.next), {});
      var started := Next(ended, StartSuccessor(t, true));
      assert started.core == ended.core && At(started, w.next) == AtHead;
      events := HeadServes(started, w.next);
      StepThen(ended, StartSuccessor(t, true), events);
      StepThen(w, Finish(t), [StartSuccessor(t, true)] + events);
      events := [Finish(t)] + ([StartSuccessor(t, true)] + events);
    }
  }

  /** Once the program stops, a worker in its loop ends without taking more, and still answers every request. */
  lemma StoppedWorkerEnds(w: World, t: Wid)
    requires w.stopped && w.core.worker == Some(t) && At(w, t) in {AtHead, Probing}
    ensures var after := PlayOn(w, [Quit(t), Finish(t), Resume(t)]);
      && after.core == Core(w.core.pending, None, {}) && after.taken == w.taken
      && w.core.resume <= after.answered && At(after, t) == Gone
  {
    StepThen(w, Quit(t), [Finish(t), Resume(t)]);
    TwoSteps(Next(w, Quit(t)), Finish(t), Resume(t));
    assert [Quit(t)] + [Finish(t), Resume(t)] == [Quit(t), Finish(t), Resume(t)];
  }
}
