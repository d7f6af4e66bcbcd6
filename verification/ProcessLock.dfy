/**
 The advisory lock shared by threads and processes (ProcessRLock in app/proxy_apply_coordinator.py).

 The kernel grants the lock file to one open file description at a time and takes it back when the last
 process that has the description open closes it or dies.  Inside a process a reentrant thread lock admits
 one thread.  A fork copies the object and shares the open descriptions; the first call in the child
 (_after_fork) drops what it inherited.
 */
module ProcessLock {
  import opened Wrappers

  type Proc = nat
  type Thread = nat
  type Desc = nat

  datatype Agent = Agent(proc: Proc, thread: Thread)

  // The lock file: who has which description open, who opened it, and which description is locked.
  datatype Kernel = Kernel(holder: Option<Desc>, refs: map<Desc, set<Proc>>, openers: map<Desc, Proc>, next: Desc)

  // One process's lock object.  `trying` is the descriptor of the thread that is inside acquire.
  datatype Lock = Lock(owner: Option<Thread>, depth: nat, fd: Option<Desc>, pid: Proc,
                       admitted: Option<Thread>, admissions: nat, trying: Option<Desc>)

  datatype Pair = Pair(kernel: Kernel, lock: Lock)

  function NewLock(pid: Proc): Lock {
    Lock(None, 0, None, pid, None, 0, None)
  }

  function Close(k: Kernel, d: Desc, p: Proc): Kernel {
    if d !in k.refs then k
    else
      var left := k.refs[d] - {p};
      k.(refs := k.refs[d := left], holder := if left == {} && k.holder == Some(d) then None else k.holder)
  }

  function AfterFork(s: Pair, p: Proc): Pair {
    if s.lock.pid == p then s
    else Pair(if s.lock.fd.Some? then Close(s.kernel, s.lock.fd.value, p) else s.kernel, NewLock(p))
  }

  // Enter acquire: take the thread lock; the owning thread only nests, any other opens a descriptor.
  function Begin(s0: Pair, a: Agent): Pair {
    var s := AfterFork(s0, a.proc);
    var k, l := s.kernel, s.lock;
    if l.admitted != None && l.admitted != Some(a.thread) then s
    else if l.owner == Some(a.thread) then s.(lock := l.(depth := l.depth + 1, admissions := l.admissions + 1))
    else if l.admitted != None then s
    else Pair(k.(refs := k.refs[k.next := {a.proc}], openers := k.openers[k.next := a.proc], next := k.next + 1),
              l.(admitted := Some(a.thread), admissions := 1, trying := Some(k.next)))
  }

  // One non-blocking attempt on the kernel lock.
  function TryLock(s: Pair, a: Agent): Pair {
    if s.lock.pid == a.proc && s.lock.admitted == Some(a.thread) && s.lock.trying.Some? && s.kernel.holder == None then
      Pair(s.kernel.(holder := s.lock.trying),
           s.lock.(fd := s.lock.trying, owner := Some(a.thread), depth := 1, trying := None))
    else s
  }

  function GiveUp(s: Pair, a: Agent): Pair {
    if s.lock.pid == a.proc && s.lock.admitted == Some(a.thread) && s.lock.trying.Some? then
      Pair(Close(s.kernel, s.lock.trying.value, a.proc), s.lock.(trying := None, admitted := None, admissions := 0))
    else s
  }

  function Release(s0: Pair, a: Agent): Pair {
    var s := AfterFork(s0, a.proc);
    var k, l := s.kernel, s.lock;
    if l.owner != Some(a.thread) || l.depth == 0 then s
    else if l.depth > 1 then
      s.(lock := l.(depth := l.depth - 1, admissions := if l.admissions == 0 then 0 else l.admissions - 1))
    else Pair(if l.fd.Some? then Close(k, l.fd.value, a.proc) else k,
              l.(depth := 0, owner := None, fd := None, admitted := None, admissions := 0))
  }

  // Exactly one of: free, inside acquire by one thread, or owned by one thread with its nesting counted.
  predicate WellFormed(l: Lock) {
    && (l.owner.Some? <==> l.fd.Some?) && (l.owner.Some? <==> l.depth > 0)
    && (l.owner.Some? ==> l.admitted == l.owner && l.admissions == l.depth && l.trying.None?)
    && (l.owner.None? && l.admitted.Some? ==> l.trying.Some? && l.admissions == 1)
    && (l.admitted.None? ==> l.owner.None? && l.trying.None? && l.admissions == 0)
  }

  /** The lock object of one process, changed in place.  `trying` is a local of acquire, unset between calls. */
  class ProcessRLock {
    var kernel: Kernel
    var lock: Lock

    constructor (kernel: Kernel, pid: Proc)
      ensures this.kernel == kernel && lock == NewLock(pid)
    {
      this.kernel, lock := kernel, NewLock(pid);
    }

    method ForgetInherited(p: Proc)
      modifies this
      ensures Pair(kernel, lock) == AfterFork(old(Pair(kernel, lock)), p)
    {
      if lock.pid != p {
        if lock.fd.Some? { kernel := Close(kernel, lock.fd.value, p); }
        lock := NewLock(p);
      }
    }

    /** A non-blocking acquire: nest, take the kernel lock, or leave nothing behind. */
    method Acquire(a: Agent) returns (acquired: bool)
      requires WellFormed(lock) && lock.trying.None?
      modifies this
      ensures Pair(kernel, lock) == GiveUp(TryLock(Begin(old(Pair(kernel, lock)), a), a), a)
      ensures WellFormed(lock) && lock.trying.None?
      ensures acquired <==> lock.pid == a.proc && lock.owner == Some(a.thread)
    {
      ForgetInherited(a.proc);
      if lock.admitted != None && lock.admitted != Some(a.thread) { return false; }
      if lock.owner == Some(a.thread) {
        lock := lock.(depth := lock.depth + 1, admissions := lock.admissions + 1);
        return true;
      }
      var d := kernel.next;
      kernel := kernel.(refs := kernel.refs[d := {a.proc}], openers := kernel.openers[d := a.proc], next := d + 1);
      lock := lock.(admitted := Some(a.thread), admissions := 1, trying := Some(d));
      if kernel.holder != None {
        kernel := Close(kernel, d, a.proc);
        lock := lock.(trying := None, admitted := None, admissions := 0);
        return false;
      }
      kernel := kernel.(holder := Some(d));
      lock := lock.(fd := Some(d), owner := Some(a.thread), depth := 1, trying := None);
      acquired := true;
    }

    /** Release one nesting level; a thread that is not the owner is refused. */
    method ReleaseOnce(a: Agent) returns (released: bool)
      requires WellFormed(lock) && lock.trying.None?
      modifies this
      ensures Pair(kernel, lock) == Release(old(Pair(kernel, lock)), a)
      ensures WellFormed(lock) && lock.trying.None?
      ensures released <==> old(lock.pid) == a.proc && old(lock.owner) == Some(a.thread)
    {
      ForgetInherited(a.proc);
      if lock.owner != Some(a.thread) { return false; }
      lock := lock.(depth := lock.depth - 1, admissions := lock.admissions - 1);
      if lock.depth == 0 {
        kernel := Close(kernel, lock.fd.value, a.proc);
        lock := lock.(owner := None, fd := None, admitted := None);
      }
      released := true;
    }
  }

  // ---------------------------------------------------------------------------------------------
  // Every interleaving of threads, processes, forks and deaths.

  // `used` holds every process number seen so far; the kernel does not reuse one in a run.
  datatype World = World(kernel: Kernel, procs: map<Proc, Lock>, used: set<Proc>)

  datatype Event =
    | BeginAcquire(a: Agent)
    | Attempt(a: Agent)
    | Abandon(a: Agent)
    | ReleaseOne(a: Agent)
    | Fork(parent: Proc, child: Proc)
    | Exit(p: Proc)

  function Shared(k: Kernel, parent: Proc, child: Proc): Kernel {
    k.(refs := map d | d in k.refs :: if parent in k.refs[d] then k.refs[d] + {child} else k.refs[d])
  }

  function Dead(k: Kernel, p: Proc): Kernel {
    var refs := map d | d in k.refs :: k.refs[d] - {p};
    k.(refs := refs,
       holder := if k.holder.Some? && k.holder.value in refs && refs[k.holder.value] == {} then None else k.holder)
  }

  function With(w: World, p: Proc, s: Pair): World {
    w.(kernel := s.kernel, procs := w.procs[p := s.lock])
  }

  function Next(w: World, event: Event): World {
    match event
    case BeginAcquire(a) =>
      if a.proc in w.procs then With(w, a.proc, Begin(Pair(w.kernel, w.procs[a.proc]), a)) else w
    case Attempt(a) =>
      if a.proc in w.procs then With(w, a.proc, TryLock(Pair(w.kernel, w.procs[a.proc]), a)) else w
    case Abandon(a) =>
      if a.proc in w.procs then With(w, a.proc, GiveUp(Pair(w.kernel, w.procs[a.proc]), a)) else w
    case ReleaseOne(a) =>
      if a.proc in w.procs then With(w, a.proc, Release(Pair(w.kernel, w.procs[a.proc]), a)) else w
    case Fork(parent, child) =>
      if parent in w.procs && child !in w.used then
        // The copy keeps the parent's fields; a descriptor local to an acquiring thread stays open but is lost.
        var l := w.procs[parent];
        var copied := if l.trying.Some? then NewLock(l.pid) else l;
        World(Shared(w.kernel, parent, child), w.procs[child := copied], w.used + {child})
      else w
    case Exit(p) =>
      World(Dead(w.kernel, p), w.procs - {p}, w.used)
  }

  function Play(w: World, events: seq<Event>): World {
    if events == [] then w else Next(Play(w, events[..|events| - 1]), events[|events| - 1])
  }

  function Start(p: Proc): World {
    World(Kernel(None, map[], map[], 0), map[p := NewLock(p)], {p})
  }

  // The agent's thread owns the lock object of its own process.
  predicate Holds(w: World, a: Agent) {
    a.proc in w.procs && w.procs[a.proc].pid == a.proc && w.procs[a.proc].owner == Some(a.thread)
  }

  function Depth(w: World, a: Agent): nat {
    if Holds(w, a) then w.procs[a.proc].depth else 0
  }

  // The descriptor was opened by this process and is still open in it.
  ghost predicate Own(k: Kernel, d: Desc, p: Proc) {
    d in k.refs && d in k.openers && p in k.refs[d] && k.openers[d] == p
  }

  // A description is locked only while some process has it open.
  ghost predicate Sound(w: World) {
    && w.procs.Keys <= w.used
    && (forall d :: d in w.kernel.refs || d in w.kernel.openers ==> d < w.kernel.next)
    && (w.kernel.holder.Some? ==> w.kernel.holder.value in w.kernel.refs && w.kernel.refs[w.kernel.holder.value] != {})
    && (forall p :: p in w.procs ==> WellFormed(w.procs[p]) && w.procs[p].pid in w.used)
    && (forall p :: p in w.procs && w.procs[p].pid == p && w.procs[p].fd.Some? ==>
          Own(w.kernel, w.procs[p].fd.value, p) && w.kernel.holder == w.procs[p].fd)
    && (forall p :: p in w.procs && w.procs[p].pid == p && w.procs[p].trying.Some? ==>
          Own(w.kernel, w.procs[p].trying.value, p))
    && (forall p :: p in w.procs && w.procs[p].pid != p ==> w.procs[p].trying.None?)
  }

  // Dropping what a fork copied keeps every other process's claim on the lock.
  lemma AfterForkIsSound(w: World, p: Proc)
    requires Sound(w) && p in w.procs
    ensures Sound(With(w, p, AfterFork(Pair(w.kernel, w.procs[p]), p)))
  {
  }

  lemma BeginIsSound(w: World, a: Agent)
    requires Sound(w) && a.proc in w.procs
    ensures Sound(Next(w, BeginAcquire(a)))
  {
    AfterForkIsSound(w, a.proc);
    var s := AfterFork(Pair(w.kernel, w.procs[a.proc]), a.proc);
    var w1 := With(w, a.proc, s);
    assert Next(w, BeginAcquire(a)) == With(w1, a.proc, Begin(s, a));
    OwnBeginIsSound(w1, a);
  }

  lemma OwnBeginIsSound(w: World, a: Agent)
    requires Sound(w) && a.proc in w.procs && w.procs[a.proc].pid == a.proc
    ensures Sound(With(w, a.proc, Begin(Pair(w.kernel, w.procs[a.proc]), a)))
  {
  }

  lemma OwnReleaseIsSound(w: World, a: Agent)
    requires Sound(w) && a.proc in w.procs && w.procs[a.proc].pid == a.proc
    ensures Sound(With(w, a.proc, Release(Pair(w.kernel, w.procs[a.proc]), a)))
  {
  }

  lemma AttemptIsSound(w: World, a: Agent)
    requires Sound(w) && a.proc in w.procs
    ensures Sound(Next(w, Attempt(a)))
  {
  }

  lemma AbandonIsSound(w: World, a: Agent)
    requires Sound(w) && a.proc in w.procs
    ensures Sound(Next(w, Abandon(a)))
  {
    var l := w.procs[a.proc];
    if l.pid == a.proc && l.admitted == Some(a.thread) && l.trying.Some? {
      assert w.kernel.holder != l.trying || w.kernel.refs[l.trying.value] != {};
    } else {
      assert Next(w, Abandon(a)) == w;
    }
  }

  lemma ReleaseIsSound(w: World, a: Agent)
    requires Sound(w) && a.proc in w.procs
    ensures Sound(Next(w, ReleaseOne(a)))
  {
    AfterForkIsSound(w, a.proc);
    var s := AfterFork(Pair(w.kernel, w.procs[a.proc]), a.proc);
    var w1 := With(w, a.proc, s);
    assert Next(w, ReleaseOne(a)) == With(w1, a.proc, Release(s, a));
    OwnReleaseIsSound(w1, a);
  }

  lemma ForkIsSound(w: World, parent: Proc, child: Proc)
    requires Sound(w)
    ensures Sound(Next(w, Fork(parent, child)))
  {
  }

  lemma ExitIsSound(w: World, p: Proc)
    requires Sound(w)
    ensures Sound(Next(w, Exit(p)))
  {
  }

  lemma {:induction false} EveryRunIsSound(p: Proc, events: seq<Event>)
    ensures Sound(Play(Start(p), events))
  {
    if events != [] {
      var before := Play(Start(p), events[..|events| - 1]);
      EveryRunIsSound(p, events[..|events| - 1]);
      match events[|events| - 1]
      case Fork(parent, child) => ForkIsSound(before, parent, child);
      case Exit(q) => ExitIsSound(before, q);
      case BeginAcquire(a) => if a.proc in before.procs { BeginIsSound(before, a); }
      case Attempt(a) => if a.proc in before.procs { AttemptIsSound(before, a); }
      case Abandon(a) => if a.proc in before.procs { AbandonIsSound(before, a); }
      case ReleaseOne(a) => if a.proc in before.procs { ReleaseIsSound(before, a); }
    }
  }

  /** At most one thread of one process holds the lock, at any nesting depth, in every run. */
  lemma MutualExclusion(p: Proc, events: seq<Event>, a: Agent, b: Agent)
    requires Holds(Play(Start(p), events), a) && Holds(Play(Start(p), events), b)
    ensures a == b
  {
    EveryRunIsSound(p, events);
  }

  /** Only the holder's own calls change its depth: one more per nested acquire, one less per release.
      No other agent, fork or death of another process can take the lock from it. */
  lemma DepthIsPrivate(w: World, a: Agent, event: Event)
    requires Sound(w) && Holds(w, a) && event != Exit(a.proc)
    ensures Depth(Next(w, event), a) ==
            match event
            case BeginAcquire(b) => if b == a then Depth(w, a) + 1 else Depth(w, a)
            case ReleaseOne(b) => if b == a then Depth(w, a) - 1 else Depth(w, a)
            case _ => Depth(w, a)
  {
  }

  /** The outermost release gives the kernel lock back exactly if no other process, a forked child, still has the locked
      description open. */
  lemma ReleaseFreesLock(w: World, a: Agent)
    requires Sound(w) && Holds(w, a) && Depth(w, a) == 1
    ensures var d := w.procs[a.proc].fd.value; var after := Next(w, ReleaseOne(a));
      && !Holds(after, a) && (after.kernel.holder == None <==> w.kernel.refs[d] == {a.proc})
  {
  }

  /** So does the death of a process. */
  lemma DeathFreesLock(w: World, p: Proc)
    requires Sound(w) && w.kernel.holder.Some?
    ensures Next(w, Exit(p)).kernel.holder == None <==> w.kernel.refs[w.kernel.holder.value] <= {p}
  {
  }

  lemma PlayTwo(w: World, first: Event, second: Event)
    ensures Play(w, [first, second]) == Next(Next(w, first), second)
  {
    var events := [first, second];
    assert events[..1] == [first] && [first][..0] == [];
    assert Play(w, events[..1]) == Next(w, first);
  }

  // The lock object of the process is its own and no thread is inside.
  ghost predicate Idle(w: World, p: Proc) {
    p in w.procs && w.procs[p].pid == p && w.procs[p].admitted.None?
  }

  /** An acquire with no other thread of its process ahead takes the lock exactly if the kernel lock is free. */
  lemma FreeLockIsTaken(w: World, a: Agent)
    requires Sound(w) && Idle(w, a.proc)
    ensures var after := Play(w, [BeginAcquire(a), Attempt(a)]);
      (Holds(after, a) <==> w.kernel.holder == None) && (Holds(after, a) ==> Depth(after, a) == 1)
  {
    PlayTwo(w, BeginAcquire(a), Attempt(a));
  }

  /** One that is given up leaves everything as it was, but for a description that nobody has open. */
  lemma AbandonLeavesNothing(w: World, a: Agent)
    requires Sound(w) && Idle(w, a.proc)
    ensures var after := Play(w, [BeginAcquire(a), Abandon(a)]);
      && after.procs == w.procs && after.kernel.holder == w.kernel.holder
      && (forall d :: d in w.kernel.refs ==> d in after.kernel.refs && after.kernel.refs[d] == w.kernel.refs[d])
      && (forall d :: d in after.kernel.refs && d !in w.kernel.refs ==> after.kernel.refs[d] == {})
  {
    PlayTwo(w, BeginAcquire(a), Abandon(a));
    var begun := Next(w, BeginAcquire(a));
    assert begun.procs[a.proc].trying == Some(w.kernel.next);
    assert {a.proc} - {a.proc} == {};
    assert Next(begun, Abandon(a)).procs[a.proc] == w.procs[a.proc];
  }

  /** A forked child owns nothing, whatever its copied fields say, until its own acquire succeeds. */
  lemma ForkOwnsNothing(w: World, parent: Proc, child: Proc, t: Thread)
    requires Sound(w) && parent in w.procs && child !in w.used
    ensures !Holds(Next(w, Fork(parent, child)), Agent(child, t))
  {
  }

  /** A fork hands the parent's open descriptions to the child and closes none. */
  lemma ForkSharesOpen(w: World, parent: Proc, child: Proc, d: Desc)
    requires Sound(w) && parent in w.procs && child !in w.used && d in w.kernel.refs
    ensures var after := Next(w, Fork(parent, child));
      && d in after.kernel.refs && after.kernel.holder == w.kernel.holder
      && after.kernel.refs[d] == w.kernel.refs[d] + if parent in w.kernel.refs[d] then {child} else {}
  {
  }

  /** A child forked while the lock is held keeps it from everybody when the parent releases it, until the child's own
      first call. */
  lemma ChildKeepsLock(w: World, parent: Proc, child: Proc, t: Thread, u: Thread)
    requires Sound(w) && Holds(w, Agent(parent, t)) && Depth(w, Agent(parent, t)) == 1 && child !in w.used
    requires w.kernel.refs[w.procs[parent].fd.value] == {parent} && parent != child
    ensures var released := Play(w, [Fork(parent, child), ReleaseOne(Agent(parent, t))]);
      && released.kernel.holder == w.procs[parent].fd && !Holds(released, Agent(parent, t))
      && Next(released, ReleaseOne(Agent(child, u))).kernel.holder == None
  {
    var d := w.procs[parent].fd.value;
    var forked := Next(w, Fork(parent, child));
    PlayTwo(w, Fork(parent, child), ReleaseOne(Agent(parent, t)));
    ForkIsSound(w, parent, child);
    ForkSharesOpen(w, parent, child, d);
    assert forked.procs[parent] == w.procs[parent];
    ReleaseFreesLock(forked, Agent(parent, t));
    var released := Next(forked, ReleaseOne(Agent(parent, t)));
    assert released.kernel.refs[d] == {child};
    assert released.procs[child] == forked.procs[child];
  }

  // The bare test of commit_guard: it reads _owner without looking at the process number first.
  predicate OwnerFieldMatches(w: World, a: Agent) {
    a.proc in w.procs && w.procs[a.proc].owner == Some(a.thread)
  }

  ghost predicate CallsBy(events: seq<Event>, p: Proc) {
    exists i :: 0 <= i < |events| && IsCallBy(events[i], p)
  }

  predicate IsCallBy(event: Event, p: Proc) {
    (event.BeginAcquire? || event.ReleaseOne?) && event.a.proc == p
  }

  lemma LastCall(events: seq<Event>, p: Proc)
    requires events != []
    ensures CallsBy(events, p) <==> CallsBy(events[..|events| - 1], p) || IsCallBy(events[|events| - 1], p)
  {
  }

  // The child's lock object: the parent's copy until the child's first call, its own afterwards.
  ghost predicate ChildLock(copy: Lock, w: World, child: Proc, called: bool) {
    && child in w.procs && child in w.used
    && (if called then w.procs[child].pid == child else w.procs[child] == copy)
  }

  lemma ChildStep(copy: Lock, w: World, child: Proc, called: bool, event: Event)
    requires ChildLock(copy, w, child, called) && event != Exit(child) && copy.pid != child && copy.trying.None?
    ensures ChildLock(copy, Next(w, event), child, called || IsCallBy(event, child))
  {
  }

  /** In a forked child the bare test is wrong exactly while the parent's thread of that number held the lock
      at the fork and the child has not yet called acquire or release itself. */
  lemma {:induction false} OwnerFieldInChild(w: World, parent: Proc, child: Proc, events: seq<Event>, t: Thread)
    requires Sound(w) && Holds(w, Agent(parent, t)) && child !in w.used && Exit(child) !in events
    ensures var after := Play(Next(w, Fork(parent, child)), events);
      && ChildLock(w.procs[parent], after, child, CallsBy(events, child))
      && (OwnerFieldMatches(after, Agent(child, t)) && !Holds(after, Agent(child, t)) <==> !CallsBy(events, child))
  {
    if events != [] {
      var earlier, last := events[..|events| - 1], events[|events| - 1];
      OwnerFieldInChild(w, parent, child, earlier, t);
      LastCall(events, child);
      ChildStep(w.procs[parent], Play(Next(w, Fork(parent, child)), earlier), child, CallsBy(earlier, child), last);
    }
  }

  // In a child forked while its parent's thread holds the lock the bare test passes without ownership.
  lemma InheritedOwnerExample()
    ensures var w := Play(Start(1), [BeginAcquire(Agent(1, 7)), Attempt(Agent(1, 7)), Fork(1, 2)]);
      OwnerFieldMatches(w, Agent(2, 7)) && !Holds(w, Agent(2, 7)) && Holds(w, Agent(1, 7))
  {
    var a := Agent(1, 7);
    var es := [BeginAcquire(a), Attempt(a), Fork(1, 2)];
    assert es[..2] == [BeginAcquire(a), Attempt(a)] && es[..2][..1] == [BeginAcquire(a)] && es[..2][..1][..0] == [];
    var w1 := Play(Start(1), es[..2][..1]);
    assert w1 == Next(Play(Start(1), []), BeginAcquire(a));
    var w2 := Play(Start(1), es[..2]);
    assert w2 == Next(w1, Attempt(a));
  }
}
