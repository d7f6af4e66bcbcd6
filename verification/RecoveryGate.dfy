/**
 Recovery of a required route (app/failover_services.py): switch the key of a route only after three failed checks
 of one service in a row, and never twice within the cooldown.  The clock may do anything; each call brings its own
 time and cooldown, and the injected check, selection and apply can raise.
 */
module RecoveryGate {
  import opened Wrappers

  type Identity = string

  const RETRY := 60.0
  const WINDOW := 300.0

  // None stands for an absent key of the state dictionary.
  datatype State = State(identity: Option<Identity>, failures: nat, retryAt: real, cooldownUntil: real,
                         firstFailureAt: Option<real>, failureService: Option<string>)

  // check_active: it raises, or answers with a verdict; only the verdict False is a failure.
  datatype Evidence = NoEvidence | Verdict(failed: bool, service: string)

  // select_candidate, still_valid and apply_candidate.
  datatype Proposal = NoCandidate | Invalid | SelectionRaises | Applies(raises: bool)

  datatype Request = Request(identity: Identity, now: real, cooldown: real, evidence: Evidence, proposal: Proposal)

  // A verdict that was given, and whether an apply was called for it.
  datatype Entry = Entry(identity: Identity, now: real, cooldown: real, failed: bool, service: string, applied: bool)

  datatype Answer = Deferred | CheckRaised | Healthy | Counted | NotSwitched | SelectionRaised | Switched | ApplyRaised

  datatype Reaction = Reaction(state: State, answer: Answer)

  const EMPTY := State(None, 0, 0.0, 0.0, None, None)

  function Adopt(s: State, identity: Identity): State {
    if s.identity == Some(identity) then s else State(Some(identity), 0, s.cooldownUntil, s.cooldownUntil, None, None)
  }

  // A failed verdict starts a new series when the service differs or the series is too old.
  function Count(s: State, service: string, now: real): State {
    var anew := s.failureService != Some(service) || (s.firstFailureAt.Some? && now - s.firstFailureAt.value > WINDOW);
    var s1 := if anew then s.(failures := 0, firstFailureAt := Some(now), failureService := Some(service)) else s;
    s1.(failures := s1.failures + 1)
  }

  function Recover(s: State, q: Request): Reaction {
    Decide(Adopt(s, q.identity), q)
  }

  function Decide(s: State, q: Request): Reaction {
    if q.now < s.retryAt then Reaction(s, Deferred)
    else
      var s1 := s.(retryAt := q.now + RETRY);
      if q.evidence.NoEvidence? then Reaction(s1, CheckRaised)
      else if !q.evidence.failed then Reaction(s1.(failures := 0, failureService := Some("")), Healthy)
      else
        var s2 := Count(s1, q.evidence.service, q.now);
        if s2.failures < 3 then Reaction(s2, Counted)
        else
          var s3 := s2.(retryAt := q.now + q.cooldown, cooldownUntil := q.now + q.cooldown);
          match q.proposal
          case NoCandidate => Reaction(s3, NotSwitched)
          case Invalid => Reaction(s3, NotSwitched)
          case SelectionRaises => Reaction(s3, SelectionRaised)
          case Applies(raises) => if raises then Reaction(s3, ApplyRaised) else Reaction(s3.(failures := 0), Switched)
  }

  /** The state dictionary of one route, changed in place. */
  class RouteState {
    var s: State

    constructor ()
      ensures s == EMPTY
    {
      s := EMPTY;
    }

    method RequiredRouteRecovery(q: Request) returns (answer: Answer)
      modifies this
      ensures Reaction(s, answer) == Recover(old(s), q)
    {
      if s.identity != Some(q.identity) {
        var hold := s.cooldownUntil;
        s := EMPTY;
        s := s.(identity := Some(q.identity), failures := 0, retryAt := hold, cooldownUntil := hold);
      }
      if q.now < s.retryAt { return Deferred; }
      s := s.(retryAt := q.now + RETRY);
      if q.evidence.NoEvidence? { return CheckRaised; }
      if !q.evidence.failed {
        s := s.(failures := 0);
        s := s.(failureService := Some(""));
        return Healthy;
      }
      if s.failureService != Some(q.evidence.service)
         || (s.firstFailureAt.Some? && q.now - s.firstFailureAt.value > WINDOW) {
        s := s.(failures := 0, firstFailureAt := Some(q.now), failureService := Some(q.evidence.service));
      }
      s := s.(failures := s.failures + 1);
      if s.failures < 3 { return Counted; }
      s := s.(retryAt := q.now + q.cooldown, cooldownUntil := q.now + q.cooldown);
      if q.proposal.SelectionRaises? { return SelectionRaised; }
      if q.proposal.NoCandidate? || q.proposal.Invalid? { return NotSwitched; }
      if q.proposal.raises { return ApplyRaised; }
      s := s.(failures := 0);
      answer := Switched;
    }
  }

  // ---------------------------------------------------------------------------------------------
  // Runs: the state after a list of requests, and the verdicts given on the way.

  function Play(requests: seq<Request>): State {
    if requests == [] then EMPTY else Recover(Play(requests[..|requests| - 1]), requests[|requests| - 1]).state
  }

  function Noted(q: Request, answer: Answer): seq<Entry> {
    if answer.Deferred? || answer.CheckRaised? || q.evidence.NoEvidence? then []
    else [Entry(q.identity, q.now, q.cooldown, q.evidence.failed, q.evidence.service,
                answer.Switched? || answer.ApplyRaised?)]
  }

  function History(requests: seq<Request>): seq<Entry> {
    if requests == [] then []
    else
      var last := requests[|requests| - 1];
      History(requests[..|requests| - 1]) + Noted(last, Recover(Play(requests[..|requests| - 1]), last).answer)
  }

  function Least(x: real, y: real): real { if x < y then x else y }

  // The last n verdicts are failures of one service under one identity, spaced, none before `since`.
  ghost predicate Series(h: seq<Entry>, n: nat, identity: Option<Identity>, service: Option<string>,
                         since: Option<real>) {
    && n <= |h|
    && (forall i :: |h| - n <= i < |h| ==>
          h[i].failed && Some(h[i].identity) == identity && Some(h[i].service) == service
          && (since.Some? ==> h[i].now >= since.value))
    && (forall i {:trigger h[i].cooldown} :: |h| - n <= i < |h| - 1 ==>
          h[i + 1].now >= h[i].now + Least(RETRY, h[i].cooldown))
  }

  // The state's own bookkeeping: the next check comes late enough, and a series without a start has no service name.
  ghost predicate Kept(s: State, h: seq<Entry>) {
    && (s.failures > 0 ==> |h| > 0 && s.retryAt >= h[|h| - 1].now + Least(RETRY, h[|h| - 1].cooldown))
    && (s.firstFailureAt.Some? ==> s.retryAt >= s.firstFailureAt.value)
    && (s.firstFailureAt.None? && s.failureService.Some? ==> s.failureService == Some(""))
    && Series(h, s.failures, s.identity, s.failureService, s.firstFailureAt)
  }

  ghost predicate Cooling(s: State, h: seq<Entry>) {
    && (forall i :: 0 <= i < |h| ==> h[i].cooldown >= 0.0)
    && (forall i :: 0 <= i < |h| && h[i].applied ==>
          s.cooldownUntil >= h[i].now + h[i].cooldown && s.retryAt >= h[i].now + h[i].cooldown)
  }

  // Entry k switched the key for a reason: three failures in a row.
  ghost predicate Justified(h: seq<Entry>, k: nat)
    requires k < |h|
  {
    && k >= 2 && h[k].failed && h[k - 1].failed && h[k - 2].failed
    && h[k].service == h[k - 1].service == h[k - 2].service && h[k].identity == h[k - 1].identity == h[k - 2].identity
    && h[k - 1].now >= h[k - 2].now + Least(RETRY, h[k - 2].cooldown)
    && h[k].now >= h[k - 1].now + Least(RETRY, h[k - 1].cooldown)
    && (h[k].service != "" ==> h[k].now - h[k - 2].now <= WINDOW)
  }

  // Nothing before entry k switched within its own cooldown.
  ghost predicate Apart(h: seq<Entry>, k: nat)
    requires k < |h|
  {
    forall i :: 0 <= i < k && h[i].applied ==> h[k].now >= h[i].now + h[i].cooldown
  }

  // A failed verdict that comes when the next check is due lengthens the series, or begins one.
  lemma CountedSeries(s: State, h: seq<Entry>, e: Entry)
    requires Kept(s, h) && s.identity == Some(e.identity) && e.failed && e.now >= s.retryAt
    ensures var after := Count(s, e.service, e.now);
      Series(h + [e], after.failures, after.identity, after.failureService, after.firstFailureAt)
  {
    var longer, n := h + [e], Count(s, e.service, e.now).failures;
    assert forall i :: 0 <= i < |h| ==> longer[i] == h[i];
    forall i {:trigger longer[i].cooldown} | |longer| - n <= i < |longer| - 1
      ensures longer[i + 1].now >= longer[i].now + Least(RETRY, longer[i].cooldown)
    {
      if i < |h| - 1 { assert h[i + 1].now >= h[i].now + Least(RETRY, h[i].cooldown); }
    }
  }

  lemma DecideKeeps(s: State, h: seq<Entry>, q: Request)
    requires Kept(s, h) && s.identity == Some(q.identity) && q.cooldown >= 0.0
    ensures var r := Decide(s, q); var after := h + Noted(q, r.answer);
      Kept(r.state, after) && (|after| > |h| && after[|h|].applied ==> Justified(after, |h|))
  {
    var answer := Decide(s, q).answer;
    if q.now >= s.retryAt && q.evidence.Verdict? && q.evidence.failed {
      CountedSeries(s, h, Noted(q, answer)[0]);
    }
  }

  lemma AdoptKeeps(s: State, h: seq<Entry>, identity: Identity)
    requires Kept(s, h)
    ensures Kept(Adopt(s, identity), h)
  {
  }

  lemma StepKeeps(s: State, h: seq<Entry>, q: Request)
    requires Kept(s, h) && q.cooldown >= 0.0
    ensures var r := Recover(s, q); var after := h + Noted(q, r.answer);
      Kept(r.state, after) && (|after| > |h| && after[|h|].applied ==> Justified(after, |h|))
  {
    AdoptKeeps(s, h, q.identity);
    DecideKeeps(Adopt(s, q.identity), h, q);
  }

  lemma StepCools(s: State, h: seq<Entry>, q: Request)
    requires Cooling(s, h) && q.cooldown >= 0.0
    ensures var r := Recover(s, q); var after := h + Noted(q, r.answer);
      Cooling(r.state, after) && (|after| > |h| ==> Apart(after, |h|))
  {
  }

  /** In every run, at any times, each switch follows three failed verdicts of one service under one identity with
      no other verdict between, spaced by a minute or the cooldown, within 300 seconds if the service has a name;
      and any two switches are a cooldown apart, whatever identities came and went between them. */
  lemma {:induction false} EverySwitchIsJustified(requests: seq<Request>)
    requires forall i :: 0 <= i < |requests| ==> requests[i].cooldown >= 0.0
    ensures Kept(Play(requests), History(requests)) && Cooling(Play(requests), History(requests))
    ensures forall k :: 0 <= k < |History(requests)| && History(requests)[k].applied ==>
              Justified(History(requests), k) && Apart(History(requests), k)
  {
    if requests != [] {
      var earlier, last := requests[..|requests| - 1], requests[|requests| - 1];
      EverySwitchIsJustified(earlier);
      StepKeeps(Play(earlier), History(earlier), last);
      StepCools(Play(earlier), History(earlier), last);
      var before, h := History(earlier), History(requests);
      forall k | 0 <= k < |h| && h[k].applied ensures Justified(h, k) && Apart(h, k) {
        if k < |before| {
          assert Justified(before, k) && Apart(before, k);
          assert forall i :: 0 <= i <= k ==> h[i] == before[i];
        }
      }
    }
  }

  function AnswerAt(requests: seq<Request>, i: nat): Answer
    requires i < |requests|
  {
    Recover(Play(requests[..i]), requests[i]).answer
  }

  // A failed verdict was given: it was counted, or a candidate was asked for.
  predicate Failed(answer: Answer) {
    !answer.Deferred? && !answer.CheckRaised? && !answer.Healthy?
  }

  // How many of the requests from `from` on, up to but without `to`, found a failed verdict.
  function FailedSince(requests: seq<Request>, from: nat, to: nat): nat
    requires to <= |requests|
  {
    if to <= from then 0 else FailedSince(requests, from, to - 1) + if Failed(AnswerAt(requests, to - 1)) then 1 else 0
  }

  // One call: only a failed verdict counts, by one, and a healthy one or a switch forgets the count.
  lemma AnswerMeans(s: State, q: Request)
    ensures var r := Recover(s, q);
      && (Failed(r.answer) ==> q.evidence == Verdict(true, q.evidence.service) && r.state.failures <= s.failures + 1)
      && (!Failed(r.answer) ==> r.state.failures <= s.failures)
      && (r.answer.Healthy? ==> q.evidence == Verdict(false, q.evidence.service) && r.state.failures == 0)
      && (r.answer.Switched? ==> r.state.failures == 0)
      && (Failed(r.answer) && !r.answer.Counted? ==> s.failures >= 2)
  {
  }

  lemma {:induction false} CountSince(requests: seq<Request>, i: nat, n: nat)
    requires i < n <= |requests| && AnswerAt(requests, i).Switched?
    ensures Play(requests[..n]).failures <= FailedSince(requests, i + 1, n)
    decreases n
  {
    assert requests[..n][..n - 1] == requests[..n - 1];
    AnswerMeans(Play(requests[..n - 1]), requests[n - 1]);
    if n > i + 1 { CountSince(requests, i, n - 1); }
  }

  /** Behind a switch the count starts anew: two failed verdicts come before the next candidate is asked for, whatever
      the identities and services. */
  lemma SwitchStartsAnew(requests: seq<Request>, i: nat, j: nat)
    requires i < j < |requests| && AnswerAt(requests, i).Switched?
    requires Failed(AnswerAt(requests, j)) && !AnswerAt(requests, j).Counted?
    ensures FailedSince(requests, i + 1, j) >= 2
  {
    CountSince(requests, i, j);
    AnswerMeans(Play(requests[..j]), requests[j]);
  }

  // A failed verdict of the service at that time continues the state's series.
  predicate Continues(s: State, service: string, now: real) {
    s.failureService == Some(service) && (s.firstFailureAt.Some? ==> now - s.firstFailureAt.value <= WINDOW)
  }

  // A series that the first of three failed verdicts continues and the second or third finds too old, too early for
  // the count to have reached three.
  predicate Outgrown(s: State, service: string, first: real, second: real, third: real) {
    && Continues(s, service, first)
    && ((s.failures == 0 && !Continues(s, service, third)) || (s.failures == 1 && !Continues(s, service, second)))
  }

  // The candidate is selected and tried, and the cooldown begins.
  predicate Enters(r: Reaction, q: Request) {
    && r.state.retryAt == r.state.cooldownUntil == q.now + q.cooldown
    && match q.proposal
       case Applies(raises) => r.answer == if raises then ApplyRaised else Switched
       case SelectionRaises => r.answer == SelectionRaised
       case _ => r.answer == NotSwitched
  }

  /** Three failed verdicts in a row, a retry interval apart and within the window, whatever series is running: the
      first that is not just counted has its candidate tried, and there is one exactly if no running series is outgrown.
      A series that begins with them takes all three. */
  lemma ThreeFailuresSwitch(s: State, service: string, a: Request, b: Request, c: Request)
    requires a.identity == b.identity == c.identity && a.evidence == b.evidence == c.evidence == Verdict(true, service)
    requires Adopt(s, a.identity).retryAt <= a.now && a.now + RETRY <= b.now && b.now + RETRY <= c.now
    requires c.now - a.now <= WINDOW
    ensures var running := Adopt(s, a.identity);
      var s1 := Recover(s, a); var s2 := Recover(s1.state, b); var s3 := Recover(s2.state, c);
      && (s1.answer == s2.answer == s3.answer == Counted <==> Outgrown(running, service, a.now, b.now, c.now))
      && (s1.answer != Counted ==> Enters(s1, a))
      && (s1.answer == Counted && s2.answer != Counted ==> Enters(s2, b))
      && (s1.answer == s2.answer == Counted && s3.answer != Counted ==> Enters(s3, c))
      && (!Continues(running, service, a.now) ==> s1.answer == s2.answer == Counted)
  {
    var s1 := Recover(s, a).state;
    assert Adopt(s1, b.identity) == s1;
    var s2 := Recover(s1, b).state;
    assert Adopt(s2, c.identity) == s2;
  }

  // Four failures in a row, the last three within two minutes and a few seconds, and no switch.
  lemma OutgrownSeriesExample()
    ensures var failing := (now: real) => Request("id", now, 300.0, Verdict(true, "dns"), Applies(false));
      var s := Recover(EMPTY, failing(60.0)).state;
      var s1 := Recover(s, failing(300.0)); var s2 := Recover(s1.state, failing(365.0));
      s1.answer == s2.answer == Recover(s2.state, failing(425.0)).answer == Counted
  {
  }

  /** The window is enforced on a failed verdict exactly when the series has a recorded start or begins with it; only
      a service without a name can continue a series that has none. */
  lemma {:induction false} WindowIsEnforced(requests: seq<Request>, service: string, now: real)
    requires forall i :: 0 <= i < |requests| ==> requests[i].cooldown >= 0.0
    ensures var s := Play(requests); var after := Count(s, service, now);
      && ((after.firstFailureAt.Some? && now - after.firstFailureAt.value <= WINDOW)
          <==> (s.firstFailureAt.Some? || s.failureService != Some(service)))
      && (s.firstFailureAt.None? && s.failureService == Some(service) ==> service == "")
  {
    EverySwitchIsJustified(requests);
  }

  function Failing(now: real): Request {
    Request("id", now, 300.0, Verdict(true, ""), Applies(false))
  }

  // After one healthy check, three nameless failures an hour apart switch the key.
  lemma NamelessServiceExample()
    ensures var healthy := Request("id", 0.0, 300.0, Verdict(false, ""), NoCandidate);
      Recover(Play([healthy, Failing(3600.0), Failing(7200.0)]), Failing(10800.0)).answer == Switched
  {
    var healthy := Request("id", 0.0, 300.0, Verdict(false, ""), NoCandidate);
    var all := [healthy, Failing(3600.0), Failing(7200.0)];
    assert all[..2][..1] == [healthy] && [healthy][..0] == [] && all[..2] == [healthy, Failing(3600.0)];
    assert Play([healthy]) == State(Some("id"), 0, 60.0, 0.0, None, Some(""));
    assert Play(all[..2]) == State(Some("id"), 1, 3660.0, 0.0, None, Some(""));
    assert Play(all) == State(Some("id"), 2, 7260.0, 0.0, None, Some(""));
  }
}
