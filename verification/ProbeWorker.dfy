/**
 The pool probe worker (app/pool_probe_runner.py): take tasks from a queue in batches, probe them, and on a
 pause hand what is left to a resume queue.  The script of a run says what the environment answers in each
 turn of the loop: resource readings, cancel samples, validation, and how each probe ends.
 */
module ProbeWorker {
  import opened Wrappers

  // A task is its protocol and the hash of its key; the key is left out.
  datatype Task = Task(proto: string, hash: string)

  const ISOLATED := "hysteria2"

  // ---------------------------------------------------------------------------------------------
  // Batches.

  // How many tasks join a batch that already has `taken`.
  function Joining(queue: seq<Task>, taken: nat, size: int): nat
    decreases |queue|
  {
    if queue == [] || taken >= Max(1, size) || queue[0].proto == ISOLATED then 0
    else 1 + Joining(queue[1..], taken + 1, size)
  }

  function BatchLength(queue: seq<Task>, size: int): nat {
    if queue == [] then 0 else if queue[0].proto == ISOLATED then 1 else 1 + Joining(queue[1..], 1, size)
  }

  lemma {:induction false} JoiningFits(queue: seq<Task>, taken: nat, size: int)
    ensures Joining(queue, taken, size) <= |queue|
    ensures forall i :: 0 <= i < Joining(queue, taken, size) ==> queue[i].proto != ISOLATED
    ensures taken <= Max(1, size) ==> taken + Joining(queue, taken, size) <= Max(1, size)
    ensures var n := Joining(queue, taken, size);
      n < |queue| ==> taken + n >= Max(1, size) || queue[n].proto == ISOLATED
    decreases |queue|
  {
    if queue != [] && taken < Max(1, size) && queue[0].proto != ISOLATED { JoiningFits(queue[1..], taken + 1, size); }
  }

  /** A batch is the longest allowed prefix of the queue: within the size, and an isolated task always alone. */
  lemma BatchIsLongest(queue: seq<Task>, size: int)
    requires queue != []
    ensures var n := BatchLength(queue, size);
      && 1 <= n <= |queue| && n <= Max(1, size)
      && (forall i :: 0 <= i < n && queue[i].proto == ISOLATED ==> n == 1)
      && (n < |queue| ==> n == Max(1, size) || queue[0].proto == ISOLATED || queue[n].proto == ISOLATED)
  {
    JoiningFits(queue[1..], 1, size);
    assert forall i :: 1 <= i < |queue| ==> queue[i] == queue[1..][i - 1];
  }

  /** Take one batch from the front; the batch and the rest are the queue, in order. */
  method TakeBatch(pending: seq<Task>, size: int) returns (batch: seq<Task>, rest: seq<Task>)
    ensures batch + rest == pending
    ensures |batch| == BatchLength(pending, size)
  {
    if pending == [] { return [], []; }
    batch, rest := [pending[0]], pending[1..];
    if pending[0].proto == ISOLATED { return; }
    while rest != [] && |batch| < Max(1, size)
      invariant |batch| >= 1 && batch + rest == pending
      invariant |batch| + Joining(rest, |batch|, size) == BatchLength(pending, size)
      decreases |rest|
    {
      var candidate := rest[0];
      if candidate.proto == ISOLATED { break; }
      batch, rest := batch + [candidate], rest[1..];
    }
  }

  // ---------------------------------------------------------------------------------------------
  // One turn of the loop.

  // How a probe of a ready or unready task ends.  `second` is the cancel sample taken for it after the timeout.
  datatype Fate = NotReady | Finished | Late(second: bool)

  datatype Ending =
    | Failed
    | LowMemory
    | Probed(fates: map<Task, Fate>, interrupted: bool, first: bool, stuck: bool)

  datatype Turn =
    | Cancelled
    | GivesUp
    | Waits
    | Takes(invalid: set<Task>, ending: Ending)

  datatype Worker = Worker(queue: seq<Task>, marked: set<Task>, checked: nat, paused: bool, stopped: bool)

  function Begin(tasks: seq<Task>): Worker {
    Worker(tasks, {}, 0, false, false)
  }

  function Mark(w: Worker, t: Task): Worker {
    if t in w.marked then w else w.(marked := w.marked + {t}, checked := w.checked + 1)
  }

  function MarkAll(w: Worker, tasks: seq<Task>): Worker {
    if tasks == [] then w else Mark(MarkAll(w, tasks[..|tasks| - 1]), tasks[|tasks| - 1])
  }

  // The tasks of a list that are in a set, in order.
  function Only(tasks: seq<Task>, keep: set<Task>): seq<Task> {
    if tasks == [] then []
    else
      var t := tasks[|tasks| - 1];
      Only(tasks[..|tasks| - 1], keep) + if t in keep then [t] else []
  }

  function Except(tasks: seq<Task>, drop: set<Task>): seq<Task> {
    if tasks == [] then []
    else
      var t := tasks[|tasks| - 1];
      Except(tasks[..|tasks| - 1], drop) + if t in drop then [] else [t]
  }

  // The tasks that were still pending when the wait ended.
  function LateSet(fates: map<Task, Fate>): set<Task> {
    set t | t in fates && fates[t].Late?
  }

  // The late tasks whose own cancel sample was set: they are not marked.
  function SkippedSet(fates: map<Task, Fate>): set<Task> {
    set t | t in fates && fates[t].Late? && fates[t].second
  }

  function Conclude(w: Worker, valid: seq<Task>, e: Ending): Worker
    requires e.Probed?
  {
    var late := Only(valid, LateSet(e.fates));
    var w1 := MarkAll(w, Except(valid, LateSet(e.fates)));
    var w2 := if e.first then w1.(queue := late + w1.queue) else w1;
    var w3 := MarkAll(w2, Except(late, SkippedSet(e.fates)));
    if late == [] then w3
    else w3.(paused := w3.paused || e.interrupted || e.stuck, stopped := e.stuck)
  }

  // What one batch does with the tasks that could be prepared.
  function AfterBatch(w: Worker, valid: seq<Task>, ending: Ending): Worker {
    if valid == [] then w
    else
      match ending
      case Failed => MarkAll(w, valid)
      case LowMemory => w.(queue := valid + w.queue)
      case Probed(_, _, _, _) => Conclude(w, valid, ending)
  }

  function Step(w: Worker, size: int, turn: Turn): Worker {
    match turn
    case Cancelled => w.(stopped := true)
    case GivesUp => w.(paused := true, stopped := true)
    case Waits => w
    case Takes(invalid, ending) =>
      var n := if BatchLength(w.queue, size) <= |w.queue| then BatchLength(w.queue, size) else |w.queue|;
      var batch := w.queue[..n];
      var valid := Except(batch, invalid);
      AfterBatch(MarkAll(w.(queue := w.queue[n..]), Only(batch, invalid)), valid, ending)
  }

  function Play(w: Worker, size: int, turns: seq<Turn>): Worker
    decreases |turns|
  {
    if turns == [] || w.queue == [] || w.stopped then w else Play(Step(w, size, turns[0]), size, turns[1..])
  }

  // What the final block hands to the resume queue, given its own cancel sample.
  function HandedOver(w: Worker, cancelAtEnd: bool): seq<Task> {
    if cancelAtEnd || w.paused then w.queue else []
  }

  lemma {:induction false} Members(tasks: seq<Task>, x: set<Task>)
    ensures forall t :: t in Only(tasks, x) <==> t in tasks && t in x
    ensures forall t :: t in Except(tasks, x) <==> t in tasks && t !in x
  {
    if tasks != [] { Members(tasks[..|tasks| - 1], x); }
  }

  lemma {:induction false} Split(tasks: seq<Task>, x: set<Task>)
    ensures multiset(Only(tasks, x)) + multiset(Except(tasks, x)) == multiset(tasks)
  {
    if tasks != [] {
      var front, t := tasks[..|tasks| - 1], tasks[|tasks| - 1];
      Split(front, x);
      assert tasks == front + [t];
    }
  }

  ghost function Elements(tasks: seq<Task>): set<Task> {
    set t | t in tasks
  }

  lemma LastElement(tasks: seq<Task>)
    requires tasks != []
    ensures Elements(tasks) == Elements(tasks[..|tasks| - 1]) + {tasks[|tasks| - 1]}
  {
  }

  lemma OneMore(marked: set<Task>, t: Task)
    ensures |marked + {t}| == |marked| + if t in marked then 0 else 1
  {
    if t in marked { assert marked + {t} == marked; }
  }

  lemma NotFewer(marked: set<Task>, more: set<Task>)
    ensures |marked| <= |marked + more|
  {
    assert |marked + more| == |marked| + |more - marked| by { assert marked + more == marked + (more - marked); }
  }

  // Each new mark is counted once.
  ghost function WithMarks(w: Worker, more: set<Task>): Worker {
    NotFewer(w.marked, more);
    w.(marked := w.marked + more, checked := w.checked + (|w.marked + more| - |w.marked|))
  }

  lemma MarkOne(w: Worker, more: set<Task>, t: Task)
    ensures Mark(WithMarks(w, more), t) == WithMarks(w, more + {t})
  {
    OneMore(w.marked + more, t);
    NotFewer(w.marked, more);
    assert w.marked + (more + {t}) == w.marked + more + {t};
  }

  // Marking changes nothing but the marks, and counts each new mark once.
  lemma {:induction false} Marked(w: Worker, tasks: seq<Task>)
    ensures |w.marked + Elements(tasks)| >= |w.marked|
    ensures MarkAll(w, tasks) ==
            w.(marked := w.marked + Elements(tasks), checked := w.checked + (|w.marked + Elements(tasks)| - |w.marked|))
  {
    NotFewer(w.marked, Elements(tasks));
    MarkedIs(w, tasks);
  }

  lemma {:induction false} MarkedIs(w: Worker, tasks: seq<Task>)
    ensures MarkAll(w, tasks) == WithMarks(w, Elements(tasks))
  {
    if tasks == [] {
      assert w.marked + Elements(tasks) == w.marked;
    } else {
      var front, t := tasks[..|tasks| - 1], tasks[|tasks| - 1];
      MarkedIs(w, front);
      LastElement(tasks);
      MarkOne(w, Elements(front), t);
    }
  }

  // ---------------------------------------------------------------------------------------------
  // Conservation.

  ghost predicate OnceEach(tasks: seq<Task>) {
    forall t :: multiset(tasks)[t] <= 1
  }

  // Every task of the input is queued or marked, exactly one of the two, exactly once.
  ghost predicate Conserved(input: seq<Task>, w: Worker) {
    multiset(w.queue) + multiset(w.marked) == multiset(input) && w.checked == |w.marked|
  }

  // The tasks in hand are neither queued nor marked.
  ghost predicate InHand(input: seq<Task>, w: Worker, tasks: seq<Task>) {
    multiset(w.queue) + multiset(w.marked) + multiset(tasks) == multiset(input) && w.checked == |w.marked|
  }

  lemma MarkHand(input: seq<Task>, w: Worker, tasks: seq<Task>, rest: seq<Task>)
    requires OnceEach(input)
    requires multiset(w.queue) + multiset(w.marked) + (multiset(tasks) + multiset(rest)) == multiset(input)
    requires w.checked == |w.marked|
    ensures InHand(input, MarkAll(w, tasks), rest)
  {
    Marked(w, tasks);
    var all := w.marked + Elements(tasks);
    forall t ensures multiset(all)[t] == multiset(w.marked)[t] + multiset(tasks)[t] {
      assert multiset(input)[t] <= 1;
      assert t in tasks <==> multiset(tasks)[t] > 0;
    }
    assert multiset(all) == multiset(w.marked) + multiset(tasks);
  }

  // The tasks of a batch that were done in time, that timed out and are marked for it, and that are skipped.
  function Settled(valid: seq<Task>, fates: map<Task, Fate>): seq<Task> { Except(valid, LateSet(fates)) }
  function LateOnes(valid: seq<Task>, fates: map<Task, Fate>): seq<Task> { Only(valid, LateSet(fates)) }
  function TimedOut(valid: seq<Task>, fates: map<Task, Fate>): seq<Task> {
    Except(LateOnes(valid, fates), SkippedSet(fates))
  }

  function Skipped(valid: seq<Task>, fates: map<Task, Fate>): seq<Task> {
    Only(LateOnes(valid, fates), SkippedSet(fates))
  }

  lemma Parts(valid: seq<Task>, fates: map<Task, Fate>)
    ensures multiset(Settled(valid, fates)) + multiset(LateOnes(valid, fates)) == multiset(valid)
    ensures multiset(TimedOut(valid, fates)) + multiset(Skipped(valid, fates)) == multiset(LateOnes(valid, fates))
    ensures forall t :: t in TimedOut(valid, fates) <==> t in valid && t in fates && fates[t].Late? && !fates[t].second
    ensures forall t :: t in Skipped(valid, fates) <==> t in valid && t in fates && fates[t].Late? && fates[t].second
  {
    Split(valid, LateSet(fates));
    Members(valid, LateSet(fates));
    Split(LateOnes(valid, fates), SkippedSet(fates));
    Members(LateOnes(valid, fates), SkippedSet(fates));
  }

  // Every late task is requeued or none is; the timed-out ones are marked either way.
  lemma ConcludeIs(w: Worker, valid: seq<Task>, e: Ending)
    requires e.Probed?
    ensures var after := Conclude(w, valid, e);
      && after.queue == (if e.first then LateOnes(valid, e.fates) else []) + w.queue
      && after.marked == w.marked + Elements(Settled(valid, e.fates)) + Elements(TimedOut(valid, e.fates))
      && (w.checked == |w.marked| ==> after.checked == |after.marked|)
  {
    var w1 := MarkAll(w, Settled(valid, e.fates));
    Marked(w, Settled(valid, e.fates));
    assert w1.marked == w.marked + Elements(Settled(valid, e.fates)) && w1.queue == w.queue;
    var w2 := if e.first then w1.(queue := LateOnes(valid, e.fates) + w1.queue) else w1;
    Marked(w2, TimedOut(valid, e.fates));
    var w3 := MarkAll(w2, TimedOut(valid, e.fates));
    assert w3.marked == w2.marked + Elements(TimedOut(valid, e.fates)) && w3.queue == w2.queue;
    ConcludeEnds(w, valid, e, w3);
    assert [] + w.queue == w.queue;
  }

  // The end of a batch changes no more than the flags behind the marks.
  lemma ConcludeEnds(w: Worker, valid: seq<Task>, e: Ending, marked: Worker)
    requires e.Probed?
    requires var w1 := MarkAll(w, Settled(valid, e.fates));
      marked == MarkAll(if e.first then w1.(queue := LateOnes(valid, e.fates) + w1.queue) else w1,
                        TimedOut(valid, e.fates))
    ensures var after := Conclude(w, valid, e);
      after.queue == marked.queue && after.marked == marked.marked && after.checked == marked.checked
  {
  }

  lemma ConcludeBalance(input: seq<Task>, w: Worker, valid: seq<Task>, e: Ending)
    requires OnceEach(input) && InHand(input, w, valid) && e.Probed?
    ensures var after := Conclude(w, valid, e);
      && after.checked == |after.marked|
      && multiset(w.queue) + multiset(after.marked) + multiset(Skipped(valid, e.fates)) == multiset(input)
  {
    Parts(valid, e.fates);
    ConcludeIs(w, valid, e);
    MarkHand(input, w, Settled(valid, e.fates), LateOnes(valid, e.fates));
    var w1 := MarkAll(w, Settled(valid, e.fates));
    Marked(w, Settled(valid, e.fates));
    MarkHand(input, w1, TimedOut(valid, e.fates), Skipped(valid, e.fates));
    Marked(w1, TimedOut(valid, e.fates));
  }

  lemma Balance(total: multiset<Task>, queue: multiset<Task>, marked: multiset<Task>, timed: multiset<Task>,
                skipped: multiset<Task>)
    requires queue + marked + skipped == total
    ensures queue + marked == total <==> skipped == multiset{}
    ensures timed + skipped + queue + marked == total <==> timed == multiset{}
  {
  }

  lemma NoneIn(tasks: seq<Task>)
    ensures multiset(tasks) == multiset{} <==> forall t :: t !in tasks
  {
    if multiset(tasks) == multiset{} {
      forall t ensures t !in tasks { assert multiset(tasks)[t] == 0; }
    } else {
      assert tasks[0] in tasks;
    }
  }

  lemma ConservedWhen(input: seq<Task>, w: Worker, valid: seq<Task>, e: Ending)
    requires OnceEach(input) && InHand(input, w, valid) && e.Probed?
    ensures Conserved(input, Conclude(w, valid, e)) <==>
            (if e.first then multiset(TimedOut(valid, e.fates)) else multiset(Skipped(valid, e.fates))) == multiset{}
  {
    ConcludeBalance(input, w, valid, e);
    ConcludeIs(w, valid, e);
    Parts(valid, e.fates);
    var after, late := Conclude(w, valid, e), LateOnes(valid, e.fates);
    Balance(multiset(input), multiset(w.queue), multiset(after.marked),
            multiset(TimedOut(valid, e.fates)), multiset(Skipped(valid, e.fates)));
    if e.first {
      assert multiset(after.queue) == multiset(late) + multiset(w.queue);
    } else {
      assert after.queue == w.queue;
    }
  }

  /** The end of a batch conserves the tasks exactly when each late task's own cancel sample agrees with the sample
      that decided about the requeue: set after unset loses the task, unset after set both queues and marks it. */
  lemma ConcludeConserves(input: seq<Task>, w: Worker, valid: seq<Task>, e: Ending)
    requires OnceEach(input) && InHand(input, w, valid) && e.Probed?
    ensures Conserved(input, Conclude(w, valid, e)) <==>
            forall t :: t in valid && t in e.fates && e.fates[t].Late? ==> e.fates[t].second == e.first
  {
    ConservedWhen(input, w, valid, e);
    Parts(valid, e.fates);
    NoneIn(TimedOut(valid, e.fates));
    NoneIn(Skipped(valid, e.fates));
  }

  // The cancel samples of every batch of a run agree.
  ghost predicate OneSample(turn: Turn) {
    turn.Takes? && turn.ending.Probed? ==>
      forall t :: t in turn.ending.fates && turn.ending.fates[t].Late? ==>
        turn.ending.fates[t].second == turn.ending.first
  }

  lemma AfterBatchConserves(input: seq<Task>, w: Worker, valid: seq<Task>, ending: Ending)
    requires OnceEach(input) && InHand(input, w, valid) && OneSample(Takes({}, ending))
    ensures Conserved(input, AfterBatch(w, valid, ending))
  {
    if valid != [] {
      match ending
      case Failed =>
        assert multiset(valid) == multiset(valid) + multiset([]);
        MarkHand(input, w, valid, []);
      case LowMemory =>
        assert multiset(valid + w.queue) == multiset(valid) + multiset(w.queue);
      case Probed(_, _, _, _) =>
        ConcludeConserves(input, w, valid, ending);
    }
  }

  // The tasks that cannot be prepared are marked, the others are in hand.
  lemma TakenInHand(input: seq<Task>, w: Worker, batch: seq<Task>, rest: seq<Task>, invalid: set<Task>)
    requires OnceEach(input) && Conserved(input, w) && w.queue == batch + rest
    ensures InHand(input, MarkAll(w.(queue := rest), Only(batch, invalid)), Except(batch, invalid))
  {
    var w0 := w.(queue := rest);
    var bad, good := Only(batch, invalid), Except(batch, invalid);
    Split(batch, invalid);
    assert multiset(w.queue) == multiset(batch) + multiset(rest);
    assert multiset(w0.queue) + multiset(w0.marked) + (multiset(bad) + multiset(good)) == multiset(input);
    MarkHand(input, w0, bad, good);
  }

  lemma StepConserves(input: seq<Task>, w: Worker, size: int, turn: Turn)
    requires OnceEach(input) && Conserved(input, w) && w.queue != [] && OneSample(turn)
    ensures Conserved(input, Step(w, size, turn))
  {
    if turn.Takes? {
      BatchIsLongest(w.queue, size);
      var n := BatchLength(w.queue, size);
      var batch, rest := w.queue[..n], w.queue[n..];
      assert w.queue == batch + rest;
      TakenInHand(input, w, batch, rest, turn.invalid);
      var marked := MarkAll(w.(queue := rest), Only(batch, turn.invalid));
      AfterBatchConserves(input, marked, Except(batch, turn.invalid), turn.ending);
      assert Step(w, size, turn) == AfterBatch(marked, Except(batch, turn.invalid), turn.ending);
    }
  }

  /** A batch whose probes all end in time, or that fails as a whole, is checked off completely: progress. */
  lemma BatchIsChecked(input: seq<Task>, w: Worker, size: int, turn: Turn)
    requires OnceEach(input) && Conserved(input, w) && w.queue != []
    requires turn.Takes? && (turn.ending.Failed? || (turn.ending.Probed? && LateSet(turn.ending.fates) == {}))
    ensures var n := BatchLength(w.queue, size); var after := Step(w, size, turn);
      && n <= |w.queue| && after.queue == w.queue[n..] && after.checked == w.checked + n
      && after.marked == w.marked + Elements(w.queue[..n])
  {
    BatchIsLongest(w.queue, size);
    var n := BatchLength(w.queue, size);
    var after := Step(w, size, turn);
    if turn.ending.Probed? {
      forall t | t in turn.ending.fates ensures !turn.ending.fates[t].Late? { assert t !in LateSet(turn.ending.fates); }
    }
    StepConserves(input, w, size, turn);
    AllMarked(w, n, turn);
    ConservedCounts(input, w);
    ConservedCounts(input, after);
  }

  lemma AllMarked(w: Worker, n: nat, turn: Turn)
    requires n <= |w.queue| && turn.Takes?
    requires (turn.ending.Failed? || (turn.ending.Probed? && LateSet(turn.ending.fates) == {}))
    ensures var batch := w.queue[..n];
      var after := AfterBatch(MarkAll(w.(queue := w.queue[n..]), Only(batch, turn.invalid)),
                              Except(batch, turn.invalid), turn.ending);
      after.queue == w.queue[n..] && after.marked == w.marked + Elements(batch)
  {
    var batch := w.queue[..n];
    var invalid, valid := Only(batch, turn.invalid), Except(batch, turn.invalid);
    var w1 := MarkAll(w.(queue := w.queue[n..]), invalid);
    Marked(w.(queue := w.queue[n..]), invalid);
    Members(batch, turn.invalid);
    assert Elements(batch) == Elements(invalid) + Elements(valid);
    if turn.ending.Failed? {
      Marked(w1, valid);
    } else {
      NothingLate(valid, turn.ending.fates);
      ConcludeIs(w1, valid, turn.ending);
      assert [] + w1.queue == w1.queue;
    }
  }

  lemma NothingLate(valid: seq<Task>, fates: map<Task, Fate>)
    requires LateSet(fates) == {}
    ensures LateOnes(valid, fates) == [] && Elements(Settled(valid, fates)) == Elements(valid)
    ensures TimedOut(valid, fates) == []
  {
    Members(valid, LateSet(fates));
    NoMembers(LateOnes(valid, fates));
  }

  lemma NoMembers(tasks: seq<Task>)
    ensures tasks == [] <==> forall t :: t !in tasks
  {
    if tasks != [] { assert tasks[0] in tasks; }
  }

  /** At every loop head of every run whose batches sample once, the queue and the marks make up the input. */
  lemma {:induction false} RunConserves(input: seq<Task>, w: Worker, size: int, turns: seq<Turn>)
    requires OnceEach(input) && Conserved(input, w)
    requires forall i :: 0 <= i < |turns| ==> OneSample(turns[i])
    ensures Conserved(input, Play(w, size, turns))
    decreases |turns|
  {
    if turns != [] && w.queue != [] && !w.stopped {
      StepConserves(input, w, size, turns[0]);
      RunConserves(input, Step(w, size, turns[0]), size, turns[1..]);
    }
  }

  lemma StartConserves(tasks: seq<Task>)
    ensures Conserved(tasks, Begin(tasks))
  {
  }

  lemma ConservedCounts(input: seq<Task>, w: Worker)
    requires Conserved(input, w)
    ensures w.checked + |w.queue| == |input|
  {
    assert |multiset(w.queue) + multiset(w.marked)| == |multiset(w.queue)| + |multiset(w.marked)|;
  }

  /** When the worker returns, the tasks it checked and the tasks it hands over add up to the total exactly when the
      queue is empty, the run paused, or the cancel request is still set in the final block. */
  lemma ExitAccounts(tasks: seq<Task>, size: int, turns: seq<Turn>, cancelAtEnd: bool)
    requires OnceEach(tasks) && forall i :: 0 <= i < |turns| ==> OneSample(turns[i])
    ensures var w := Play(Begin(tasks), size, turns);
      && w.checked + |w.queue| == |tasks|
      && (w.checked + |HandedOver(w, cancelAtEnd)| == |tasks| <==> w.queue == [] || w.paused || cancelAtEnd)
  {
    StartConserves(tasks);
    RunConserves(tasks, Begin(tasks), size, turns);
    ConservedCounts(tasks, Play(Begin(tasks), size, turns));
  }

  // ---------------------------------------------------------------------------------------------
  // When a run pauses, and what it leaves.

  // The worker takes another turn.
  predicate Running(w: Worker) {
    w.queue != [] && !w.stopped
  }

  // The next batch.
  function Batch(w: Worker, size: int): seq<Task>
    requires w.queue != []
  {
    BatchIsLongest(w.queue, size);
    w.queue[..BatchLength(w.queue, size)]
  }

  // A probe of the batch was still pending when the wait ended.
  ghost predicate SomeLate(batch: seq<Task>, turn: Turn)
    requires turn.Takes? && turn.ending.Probed?
  {
    exists t :: t in batch && t !in turn.invalid && t in turn.ending.fates && turn.ending.fates[t].Late?
  }

  // The turn hands the rest of the run to the resume queue: memory stays short, or a batch with pending probes was
  // interrupted or cannot be finished.
  ghost predicate Pauses(w: Worker, size: int, turn: Turn)
    requires w.queue != []
  {
    || turn.GivesUp?
    || (turn.Takes? && turn.ending.Probed? && (turn.ending.interrupted || turn.ending.stuck)
        && SomeLate(Batch(w, size), turn))
  }

  lemma LateThere(batch: seq<Task>, turn: Turn)
    requires turn.Takes? && turn.ending.Probed?
    ensures var valid := Except(batch, turn.invalid);
      Only(valid, LateSet(turn.ending.fates)) != [] <==> SomeLate(batch, turn)
  {
    var valid := Except(batch, turn.invalid);
    Members(batch, turn.invalid);
    Members(valid, LateSet(turn.ending.fates));
    NoMembers(Only(valid, LateSet(turn.ending.fates)));
  }

  // What one turn does to the flags and the queue: a batch goes, and what is requeued of it comes to the front.
  lemma TurnMeans(w: Worker, size: int, turn: Turn)
    requires Running(w)
    ensures var after := Step(w, size, turn);
      && (after.paused <==> w.paused || Pauses(w, size, turn))
      && (after.stopped <==> turn.Cancelled? || turn.GivesUp?
                             || (turn.Takes? && turn.ending.Probed? && turn.ending.stuck
                                 && SomeLate(Batch(w, size), turn)))
      && after.queue == Requeued(Batch(w, size), turn) + Behind(w, size, turn)
  {
    if turn.Takes? {
      BatchIsLongest(w.queue, size);
      var batch := Batch(w, size);
      var valid := Except(batch, turn.invalid);
      var taken := MarkAll(w.(queue := w.queue[|batch|..]), Only(batch, turn.invalid));
      Marked(w.(queue := w.queue[|batch|..]), Only(batch, turn.invalid));
      assert Step(w, size, turn) == AfterBatch(taken, valid, turn.ending);
      BatchMeans(taken, batch, turn);
    }
  }

  // The tasks of the batch that go back to the queue, in order: all that could be started if memory ran short, the
  // pending ones if a cancel request was seen when the wait ended.
  function Requeued(batch: seq<Task>, turn: Turn): seq<Task> {
    if !turn.Takes? || turn.ending.Failed? then []
    else if turn.ending.LowMemory? then Except(batch, turn.invalid)
    else if turn.ending.first then Only(Except(batch, turn.invalid), LateSet(turn.ending.fates))
    else []
  }

  // The queue behind what the turn takes.
  function Behind(w: Worker, size: int, turn: Turn): seq<Task>
    requires w.queue != []
  {
    BatchIsLongest(w.queue, size);
    if turn.Takes? then w.queue[BatchLength(w.queue, size)..] else w.queue
  }

  lemma BatchMeans(w: Worker, batch: seq<Task>, turn: Turn)
    requires turn.Takes? && !w.stopped
    ensures var after := AfterBatch(w, Except(batch, turn.invalid), turn.ending);
      var ends := turn.ending.Probed? && SomeLate(batch, turn);
      && (after.paused <==> w.paused || (ends && (turn.ending.interrupted || turn.ending.stuck)))
      && (after.stopped <==> ends && turn.ending.stuck)
      && after.queue == Requeued(batch, turn) + w.queue
  {
    var valid := Except(batch, turn.invalid);
    assert [] + w.queue == w.queue;
    match turn.ending
    case Failed => Marked(w, valid);
    case LowMemory =>
    case Probed(fates, _, _, _) =>
      LateThere(batch, turn);
      if valid != [] {
        ConcludeIs(w, valid, turn.ending);
        ConcludeFlags(w, valid, turn.ending);
      }
  }

  lemma ConcludeFlags(w: Worker, valid: seq<Task>, e: Ending)
    requires e.Probed?
    ensures var after := Conclude(w, valid, e);
      if LateOnes(valid, e.fates) == [] then after.paused == w.paused && after.stopped == w.stopped
      else after.paused == (w.paused || e.interrupted || e.stuck) && after.stopped == e.stuck
  {
    var w1 := MarkAll(w, Settled(valid, e.fates));
    Marked(w, Settled(valid, e.fates));
    var w2 := if e.first then w1.(queue := LateOnes(valid, e.fates) + w1.queue) else w1;
    Marked(w2, TimedOut(valid, e.fates));
  }

  lemma {:induction false} PlayAppend(w: Worker, size: int, a: seq<Turn>, b: seq<Turn>)
    ensures Play(w, size, a + b) == Play(Play(w, size, a), size, b)
    decreases |a|
  {
    if a == [] {
      assert a + b == b;
    } else if Running(w) {
      assert (a + b)[1..] == a[1..] + b && (a + b)[0] == a[0];
      PlayAppend(Step(w, size, a[0]), size, a[1..], b);
    }
  }

  lemma PlayStops(w: Worker, size: int, turns: seq<Turn>)
    requires !Running(w)
    ensures Play(w, size, turns) == w
  {
  }

  // A run up to a turn, that turn, and anything scripted behind it.
  lemma PlayThrough(w: Worker, size: int, a: seq<Turn>, turn: Turn, b: seq<Turn>)
    requires Running(Play(w, size, a))
    ensures Play(w, size, a + [turn] + b) == Play(Step(Play(w, size, a), size, turn), size, b)
  {
    PlayAppend(w, size, a + [turn], b);
    PlayAppend(w, size, a, [turn]);
    assert [turn][1..] == [];
  }

  /** A cancel request takes no further batch: whatever is scripted behind it, queue and marks stay as they were, and
      the queue is handed over if the request is still set in the final block or the run had paused before. */
  lemma CancelTakesNothing(w: Worker, size: int, a: seq<Turn>, b: seq<Turn>, cancelAtEnd: bool)
    requires Running(Play(w, size, a))
    ensures var before := Play(w, size, a); var after := Play(w, size, a + [Cancelled] + b);
      && after == before.(stopped := true)
      && HandedOver(after, cancelAtEnd) == if cancelAtEnd || before.paused then before.queue else []
  {
    PlayThrough(w, size, a, Cancelled, b);
    PlayStops(Step(Play(w, size, a), size, Cancelled), size, b);
  }

  /** A run that gives up for lack of memory hands over exactly the queue it had, whatever the cancel sample says. */
  lemma GivingUpHandsOver(w: Worker, size: int, a: seq<Turn>, b: seq<Turn>, cancelAtEnd: bool)
    requires Running(Play(w, size, a))
    ensures var before := Play(w, size, a); var after := Play(w, size, a + [GivesUp] + b);
      && HandedOver(after, cancelAtEnd) == after.queue == before.queue
      && after.marked == before.marked && after.checked == before.checked
  {
    PlayThrough(w, size, a, GivesUp, b);
    PlayStops(Step(Play(w, size, a), size, GivesUp), size, b);
  }

  lemma {:induction false} PauseStays(w: Worker, size: int, turns: seq<Turn>)
    requires w.paused
    ensures Play(w, size, turns).paused
    decreases |turns|
  {
    if turns != [] && Running(w) {
      TurnMeans(w, size, turns[0]);
      PauseStays(Step(w, size, turns[0]), size, turns[1..]);
    }
  }

  /** Once a batch with pending probes was interrupted or got stuck, whatever is left when the run ends is handed over.
      A stuck batch ends the run at once: what is left is its requeued tasks, in order, and the queue behind it. */
  lemma InterruptedHandsOver(w: Worker, size: int, a: seq<Turn>, turn: Turn, b: seq<Turn>, cancelAtEnd: bool)
    requires Running(Play(w, size, a)) && turn.Takes? && turn.ending.Probed?
    requires (turn.ending.interrupted || turn.ending.stuck) && SomeLate(Batch(Play(w, size, a), size), turn)
    ensures var before := Play(w, size, a); var after := Play(w, size, a + [turn] + b);
      && HandedOver(after, cancelAtEnd) == after.queue
      && (turn.ending.stuck ==> after.queue == Requeued(Batch(before, size), turn) + Behind(before, size, turn))
  {
    var before := Play(w, size, a);
    PlayThrough(w, size, a, turn, b);
    TurnMeans(before, size, turn);
    PauseStays(Step(before, size, turn), size, b);
    if turn.ending.stuck { PlayStops(Step(before, size, turn), size, b); }
  }

  // The run reaches this turn, and the turn pauses it.
  ghost predicate PausesAt(w: Worker, size: int, turns: seq<Turn>, i: int) {
    && 0 <= i < |turns| && Running(Play(w, size, turns[..i]))
    && Pauses(Play(w, size, turns[..i]), size, turns[i])
  }

  /** A run has paused exactly if some turn that it reaches pauses it. */
  lemma {:induction false} PausedExactly(w: Worker, size: int, turns: seq<Turn>)
    ensures Play(w, size, turns).paused <==> w.paused || exists i :: PausesAt(w, size, turns, i)
    decreases |turns|
  {
    if turns != [] {
      var n := |turns| - 1;
      var front, last := turns[..n], turns[n];
      PausedExactly(w, size, front);
      PausesLater(w, size, turns);
      assert turns == front + [last];
      PlayAppend(w, size, front, [last]);
      var before := Play(w, size, front);
      if Running(before) {
        assert Play(before, size, [last]) == Step(before, size, last) by { assert [last][1..] == []; }
        TurnMeans(before, size, last);
        assert PausesAt(w, size, turns, n) <==> Pauses(before, size, last);
      } else {
        PlayStops(before, size, [last]);
      }
    }
  }

  // The turns that pause a run are those of its front, and the last one if it does.
  lemma PausesLater(w: Worker, size: int, turns: seq<Turn>)
    requires turns != []
    ensures var n := |turns| - 1;
      (exists i :: PausesAt(w, size, turns, i)) <==>
        (exists i :: PausesAt(w, size, turns[..n], i)) || PausesAt(w, size, turns, n)
  {
    var n := |turns| - 1;
    var front := turns[..n];
    forall i | 0 <= i < n ensures PausesAt(w, size, turns, i) <==> PausesAt(w, size, front, i) {
      assert front[..i] == turns[..i] && front[i] == turns[i];
    }
    if i :| PausesAt(w, size, front, i) {
      assert PausesAt(w, size, turns, i);
    }
    if i :| PausesAt(w, size, turns, i) {
      assert i == n || PausesAt(w, size, front, i);
    }
  }

  // The filters keep the order: they work part by part.
  lemma {:induction false} OrderKept(a: seq<Task>, b: seq<Task>, x: set<Task>)
    ensures Only(a + b, x) == Only(a, x) + Only(b, x)
    ensures Except(a + b, x) == Except(a, x) + Except(b, x)
  {
    if b == [] {
      assert a + b == a && Only(a, x) + [] == Only(a, x) && Except(a, x) + [] == Except(a, x);
    } else {
      var front, t := b[..|b| - 1], b[|b| - 1];
      OrderKept(a, front, x);
      assert (a + b)[..|a + b| - 1] == a + front && (a + b)[|a + b| - 1] == t;
      var kept: seq<Task>, dropped: seq<Task> := if t in x then [t] else [], if t in x then [] else [t];
      assert Only(a, x) + Only(front, x) + kept == Only(a, x) + (Only(front, x) + kept);
      assert Except(a, x) + Except(front, x) + dropped == Except(a, x) + (Except(front, x) + dropped);
    }
  }

  // ---------------------------------------------------------------------------------------------
  // Without any assumption on the samples: nothing appears, and what disappears is known.

  // The tasks that one turn drops: late, not requeued, and skipped by their own sample.
  function DroppedIn(w: Worker, size: int, turn: Turn): set<Task> {
    if turn.Takes? && turn.ending.Probed? && !turn.ending.first && BatchLength(w.queue, size) <= |w.queue| then
      var valid := Except(w.queue[..BatchLength(w.queue, size)], turn.invalid);
      set t | t in Skipped(valid, turn.ending.fates)
    else {}
  }

  function DroppedOver(w: Worker, size: int, turns: seq<Turn>): set<Task>
    decreases |turns|
  {
    if turns == [] || w.queue == [] || w.stopped then {}
    else DroppedIn(w, size, turns[0]) + DroppedOver(Step(w, size, turns[0]), size, turns[1..])
  }

  ghost function Known(w: Worker): set<Task> {
    Elements(w.queue) + w.marked
  }

  lemma ConcludeKnows(w: Worker, valid: seq<Task>, e: Ending)
    requires e.Probed?
    ensures Known(w) + Elements(valid) ==
            Known(Conclude(w, valid, e)) + if e.first then {} else Elements(Skipped(valid, e.fates))
  {
    ConcludeIs(w, valid, e);
    PartElements(valid, e.fates);
    Joined(LateOnes(valid, e.fates), w.queue);
    assert [] + w.queue == w.queue;
  }

  lemma PartElements(valid: seq<Task>, fates: map<Task, Fate>)
    ensures Elements(valid) == Elements(Settled(valid, fates)) + Elements(LateOnes(valid, fates))
    ensures Elements(LateOnes(valid, fates)) == Elements(TimedOut(valid, fates)) + Elements(Skipped(valid, fates))
  {
    Members(valid, LateSet(fates));
    Members(LateOnes(valid, fates), SkippedSet(fates));
  }

  lemma Joined(a: seq<Task>, b: seq<Task>)
    ensures Elements(a + b) == Elements(a) + Elements(b)
  {
  }

  lemma StepKnows(w: Worker, size: int, turn: Turn)
    requires w.queue != []
    ensures Known(w) == Known(Step(w, size, turn)) + DroppedIn(w, size, turn)
  {
    if turn.Takes? {
      BatchIsLongest(w.queue, size);
      var n := BatchLength(w.queue, size);
      var batch := w.queue[..n];
      PreparedKnows(w, n, turn.invalid);
      BatchKnows(MarkAll(w.(queue := w.queue[n..]), Only(batch, turn.invalid)), Except(batch, turn.invalid),
                 turn.ending);
    }
  }

  lemma PreparedKnows(w: Worker, n: nat, invalid: set<Task>)
    requires n <= |w.queue|
    ensures Known(w) ==
              Known(MarkAll(w.(queue := w.queue[n..]), Only(w.queue[..n], invalid)))
              + Elements(Except(w.queue[..n], invalid))
  {
    var batch, rest := w.queue[..n], w.queue[n..];
    assert w.queue == batch + rest;
    Joined(batch, rest);
    Members(batch, invalid);
    Marked(w.(queue := rest), Only(batch, invalid));
    assert Elements(batch) == Elements(Except(batch, invalid)) + Elements(Only(batch, invalid));
  }

  lemma BatchKnows(w: Worker, valid: seq<Task>, ending: Ending)
    ensures Known(w) + Elements(valid) == Known(AfterBatch(w, valid, ending))
            + (if ending.Probed? && !ending.first then Elements(Skipped(valid, ending.fates)) else {})
  {
    match ending
    case Failed => Marked(w, valid);
    case LowMemory => Joined(valid, w.queue);
    case Probed(_, _, _, _) =>
      if valid == [] { PartElements(valid, ending.fates); } else { ConcludeKnows(w, valid, ending); }
  }

  /** Every run, whatever the samples: the tasks queued, marked or dropped are exactly the input's. */
  lemma {:induction false} RunKnows(w: Worker, size: int, turns: seq<Turn>)
    ensures Known(w) == Known(Play(w, size, turns)) + DroppedOver(w, size, turns)
    decreases |turns|
  {
    if turns != [] && w.queue != [] && !w.stopped {
      StepKnows(w, size, turns[0]);
      RunKnows(Step(w, size, turns[0]), size, turns[1..]);
    }
  }

  // One late task, cancel set between the two samples: neither queued, nor marked, nor counted.
  lemma LostTaskExample()
    ensures var t := Task("vless", "a");
      var turn := Takes({}, Probed(map[t := Late(true)], false, false, false));
      var w := Play(Begin([t]), 1, [turn]);
      w.queue == [] && w.marked == {} && w.checked == 0 && HandedOver(w, true) == []
  {
    var t := Task("vless", "a");
    var turn := Takes({}, Probed(map[t := Late(true)], false, false, false));
    var e := turn.ending;
    OneTask(t, {});
    OneTask(t, {t});
    assert LateSet(e.fates) == {t} && SkippedSet(e.fates) == {t};
    assert Conclude(Worker([], {}, 0, false, false), [t], e) == Worker([], {}, 0, false, false);
    var w := Step(Begin([t]), 1, turn);
    assert Begin([t]).queue[..1] == [t] && Begin([t]).queue[1..] == [];
    assert w == Worker([], {}, 0, false, false);
  }

  /** A run whose queue is neither checked nor handed over: the cancel request is withdrawn before the final block. */
  lemma ForgottenQueueExample()
    ensures var t := Task("vless", "a"); var w := Play(Begin([t]), 1, [Cancelled]);
      w.queue == [t] && w.checked == 0 && HandedOver(w, false) == []
  {
    var t := Task("vless", "a");
    var w := Step(Begin([t]), 1, Cancelled);
    assert w == Begin([t]).(stopped := true) && Play(w, 1, [Cancelled][1..]) == w;
  }

  lemma OneTask(t: Task, x: set<Task>)
    ensures Only([t], x) == (if t in x then [t] else []) && Except([t], x) == if t in x then [] else [t]
  {
  }

  // ---------------------------------------------------------------------------------------------
  // The worker's loop.

  lemma FilterNext(tasks: seq<Task>, i: nat, x: set<Task>)
    requires i < |tasks|
    ensures Only(tasks[..i + 1], x) == if tasks[i] in x then Only(tasks[..i], x) + [tasks[i]] else Only(tasks[..i], x)
    ensures Except(tasks[..i + 1], x) == if tasks[i] in x then Except(tasks[..i], x)
                                         else Except(tasks[..i], x) + [tasks[i]]
  {
    assert tasks[..i + 1][..i] == tasks[..i];
  }

  lemma MarkedNext(w: Worker, tasks: seq<Task>, t: Task)
    ensures MarkAll(w, tasks + [t]) == Mark(MarkAll(w, tasks), t)
  {
  }

  class ProbePass {
    var queue: seq<Task>
    var marked: set<Task>
    var checked: nat
    var paused: bool
    var stopped: bool

    ghost function State(): Worker
      reads this
    {
      Worker(queue, marked, checked, paused, stopped)
    }

    constructor (tasks: seq<Task>)
      ensures State() == Begin(tasks)
    {
      queue, marked, checked, paused, stopped := tasks, {}, 0, false, false;
    }

    method MarkChecked(t: Task)
      modifies this`marked, this`checked
      ensures State() == Mark(old(State()), t)
    {
      if t in marked { return; }
      marked, checked := marked + {t}, checked + 1;
    }

    // Record and mark what cannot be prepared; the rest is the batch to start.
    method Validate(batch: seq<Task>, invalid: set<Task>) returns (valid: seq<Task>)
      modifies this`marked, this`checked
      ensures valid == Except(batch, invalid) && State() == MarkAll(old(State()), Only(batch, invalid))
    {
      valid := [];
      for i := 0 to |batch|
        invariant valid == Except(batch[..i], invalid) && State() == MarkAll(old(State()), Only(batch[..i], invalid))
      {
        FilterNext(batch, i, invalid);
        if batch[i] in invalid {
          MarkedNext(old(State()), Only(batch[..i], invalid), batch[i]);
          MarkChecked(batch[i]);
        } else {
          valid := valid + [batch[i]];
        }
      }
      assert batch[..|batch|] == batch;
    }

    method MarkEach(tasks: seq<Task>)
      modifies this`marked, this`checked
      ensures State() == MarkAll(old(State()), tasks)
    {
      for i := 0 to |tasks|
        invariant State() == MarkAll(old(State()), tasks[..i])
      {
        assert tasks[..i + 1][..i] == tasks[..i];
        MarkChecked(tasks[i]);
      }
      assert tasks[..|tasks|] == tasks;
    }

    // Mark what finished, requeue what is pending when a cancel was sampled, time out the rest.
    method Finish(valid: seq<Task>, e: Ending)
      requires e.Probed?
      modifies this
      ensures State() == Conclude(old(State()), valid, e)
    {
      var settled, late := Except(valid, LateSet(e.fates)), Only(valid, LateSet(e.fates));
      MarkEach(settled);
      if e.first { queue := late + queue; }
      MarkEach(Except(late, SkippedSet(e.fates)));
      if late != [] {
        paused := paused || e.interrupted || e.stuck;
        stopped := e.stuck;
      }
    }

    /** The loop under one script; every exit leaves the state that the script determines. */
    method Work(size: int, turns: seq<Turn>)
      modifies this
      ensures State() == Play(old(State()), size, turns)
    {
      var i := 0;
      while queue != [] && !stopped && i < |turns|
        invariant 0 <= i <= |turns|
        invariant Play(State(), size, turns[i..]) == Play(old(State()), size, turns)
        decreases |turns| - i
      {
        assert turns[i..][1..] == turns[i + 1..];
        ghost var next := Step(State(), size, turns[i]);
        match turns[i] {
        case Cancelled =>
          stopped := true;
        case GivesUp =>
          paused, stopped := true, true;
        case Waits =>
        case Takes(invalid, ending) =>
          BatchIsLongest(queue, size);
          var batch, rest := TakeBatch(queue, size);
          assert batch == queue[..|batch|] && rest == queue[|batch|..];
          queue := rest;
          var valid := Validate(batch, invalid);
          if valid != [] {
            match ending
            case Failed => MarkEach(valid);
            case LowMemory => queue := valid + queue;
            case Probed(_, _, _, _) => Finish(valid, ending);
          }
        }
        assert State() == next;
        i := i + 1;
      }
    }
  }
}
