/**
 The generator of DNS routing rules (app/dns_route_generator.py:63-68, 261-314): render the rules from inputs that
 may change at any time, publish them, and remember input and output so that the next call can skip the rendering.
 Digests are taken to identify their texts, and only the generator writes its cache.
 */
module DnsGenerator {
  import opened Wrappers

  type Text = string

  // Everything the signature covers, the generator's own version included.
  datatype Input = Input(version: Text, routes: map<Text, Text>, owner: Text, priority: Text, udpPolicy: Text,
                         callPolicy: Text)

  datatype Entry = Entry(input: Input, output: Text)

  datatype State = State(output: Option<Text>, cache: Option<Entry>)

  // A write fails before its rename, or is interrupted right after it.
  datatype Write = Untouched | Interrupted | Written

  // One call: the three snapshots (None raises), whether the checks before publication pass, how the publication goes,
  // whether the daemon comes back, how the cache is written, and whether a rollback's own write works.
  datatype Script = Script(first: Option<Input>, second: Option<Input>, third: Option<Input>, checks: bool,
                           publish: Write, restarts: bool, record: Write, rollback: bool)

  datatype Outcome = Failed | Done(input: Input, changed: bool, cached: bool)

  datatype Result = Result(state: State, outcome: Outcome)

  predicate Cached(st: State, input: Input) {
    st.cache.Some? && st.cache.value.input == input && st.output == Some(st.cache.value.output)
  }

  // Restart, then remember.  A failure here undoes the publication, if there was one.
  function Finish(st: State, was: Option<Text>, published: bool, input: Input, rendered: Text, cached: bool,
                  c: Script): Result
  {
    var recorded := if c.restarts && !c.record.Untouched? then st.(cache := Some(Entry(input, rendered))) else st;
    if c.restarts && c.record.Written? then Result(recorded, Done(input, published, cached))
    else Result(if published && c.rollback then recorded.(output := was) else recorded, Failed)
  }

  function Generate(render: Input -> Option<Text>, st: State, c: Script): Result {
    if c.first.None? then Result(st, Failed)
    else
      var input := c.first.value;
      var cached := Cached(st, input);
      var rendered := if cached then st.output else render(input);
      if rendered.None? || (!cached && c.second != Some(input)) then Result(st, Failed)
      else
        var changed := st.output != rendered;
        if !c.checks || (changed && c.third != Some(input)) then Result(st, Failed)
        else if !changed then Finish(st, st.output, false, input, rendered.value, cached, c)
        else
          match c.publish
          case Untouched => Result(st, Failed)
          case Interrupted => Result(st.(output := rendered), Failed)
          case Written => Finish(st.(output := rendered), st.output, true, input, rendered.value, cached, c)
  }

  // ---------------------------------------------------------------------------------------------
  // The code's own steps.

  class Generator {
    var output: Option<Text>
    var cache: Option<Entry>

    ghost function Contents(): State
      reads this
    {
      State(output, cache)
    }

    constructor (output: Option<Text>)
      ensures Contents() == State(output, None)
    {
      this.output, cache := output, None;
    }

    method GenerateRules(render: Input -> Option<Text>, c: Script) returns (outcome: Outcome)
      modifies this
      ensures Result(Contents(), outcome) == Generate(render, old(Contents()), c)
    {
      if c.first.None? { return Failed; }
      var input, was := c.first.value, output;
      var cached := cache.Some? && cache.value.input == input && output.Some? && output.value == cache.value.output;
      var rendered := output;
      if !cached {
        rendered := render(input);
        if rendered.None? { return Failed; }
        if c.second.None? || c.second.value != input { return Failed; }
      }
      var changed := was != rendered;
      if !c.checks { return Failed; }
      if changed && (c.third.None? || c.third.value != input) { return Failed; }
      var published := false;
      if changed {
        if c.publish.Untouched? { return Failed; }
        output := rendered;
        if c.publish.Interrupted? { return Failed; }
        published := true;
      }
      var failed := !c.restarts;
      if !failed {
        if !c.record.Untouched? { cache := Some(Entry(input, rendered.value)); }
        failed := !c.record.Written?;
      }
      if failed {
        if published && c.rollback { output := was; }
        return Failed;
      }
      outcome := Done(input, changed, cached);
    }
  }

  // ---------------------------------------------------------------------------------------------
  // Runs.  Between two calls anybody may replace the output file or delete the cache.

  datatype Event = Call(script: Script) | OutputReplaced(text: Option<Text>) | CacheDeleted

  function Next(render: Input -> Option<Text>, st: State, e: Event): State {
    match e
    case Call(c) => Generate(render, st, c).state
    case OutputReplaced(text) => st.(output := text)
    case CacheDeleted => st.(cache := None)
  }

  function Play(render: Input -> Option<Text>, output: Option<Text>, events: seq<Event>): State {
    if events == [] then State(output, None)
    else Next(render, Play(render, output, events[..|events| - 1]), events[|events| - 1])
  }

  // A stored pair is a real rendering.
  ghost predicate Honest(render: Input -> Option<Text>, st: State) {
    st.cache.Some? ==> render(st.cache.value.input) == Some(st.cache.value.output)
  }

  /** In every run the cache holds a real rendering. */
  lemma {:induction false} EveryRunIsHonest(render: Input -> Option<Text>, output: Option<Text>, events: seq<Event>)
    ensures Honest(render, Play(render, output, events))
  {
    if events != [] { EveryRunIsHonest(render, output, events[..|events| - 1]); }
  }

  /** A call that succeeds after any run leaves the rendering of the inputs it saw last, whether or not it took the
      cached path, remembers exactly that, and took the cached path only if nothing changed. */
  lemma SuccessIsRendering(render: Input -> Option<Text>, output: Option<Text>, events: seq<Event>, c: Script)
    requires Generate(render, Play(render, output, events), c).outcome.Done?
    ensures var r := Generate(render, Play(render, output, events), c);
      && r.state.output.Some? && r.state.output == render(r.outcome.input)
      && r.state.cache == Some(Entry(r.outcome.input, r.state.output.value))
      && c.first == Some(r.outcome.input)
      && (!r.outcome.cached ==> c.second == c.first)
      && (r.outcome.changed ==> c.third == c.first)
      && (r.outcome.cached ==> !r.outcome.changed && r.state.output == Play(render, output, events).output)
  {
    EveryRunIsHonest(render, output, events);
  }

  /** A failing call leaves the cache alone, unless the daemon was back and the write of the cache was interrupted. */
  lemma FailureKeepsCache(render: Input -> Option<Text>, st: State, c: Script)
    requires Generate(render, st, c).outcome.Failed?
    ensures Generate(render, st, c).state.cache == st.cache || (c.restarts && c.record.Interrupted?)
  {
  }

  /** A call succeeds exactly if its first snapshot is cached or can be rendered and is still the second one, the checks
      pass, new rules are published on a third snapshot like the first, the daemon is back and the cache is written. */
  lemma SuccessExactly(render: Input -> Option<Text>, st: State, c: Script)
    ensures Generate(render, st, c).outcome.Done? <==>
              && c.first.Some? && c.checks && c.restarts && c.record.Written?
              && (Cached(st, c.first.value)
                  || (render(c.first.value).Some? && c.second == c.first
                      && (st.output == render(c.first.value) || (c.third == c.first && c.publish.Written?))))
  {
  }

  /** The next call with the same inputs and an untouched output takes the cached path. */
  lemma CacheIsUsed(render: Input -> Option<Text>, st: State, c: Script, d: Script)
    requires Generate(render, st, c).outcome.Done? && d.first == c.first && d.checks && d.restarts && d.record.Written?
    ensures Generate(render, Generate(render, st, c).state, d).outcome == Done(c.first.value, false, true)
  {
  }

  // The publication takes effect and nothing takes it back.
  ghost predicate Sticks(c: Script) {
    c.publish.Interrupted? || (c.publish.Written? && !c.rollback)
  }

  /** A call that fails leaves the previous output exactly unless it had a new rendering to publish, every check
      before the publication passed, and the publication was interrupted after its rename or its rollback failed;
      even then the output is the rendering of inputs checked right before. */
  lemma FailureKeepsOutput(render: Input -> Option<Text>, st: State, c: Script)
    requires Generate(render, st, c).outcome.Failed?
    ensures var after := Generate(render, st, c).state;
      && (after.output != st.output <==>
            && c.first.Some? && render(c.first.value).Some? && !Cached(st, c.first.value) && c.second == c.first
            && c.third == c.first
            && c.checks && st.output != render(c.first.value) && Sticks(c))
      && (after.output != st.output ==> after.output == render(c.first.value))
  {
  }

  // ---------------------------------------------------------------------------------------------
  // A domain counts as listed when it or a parent domain is.

  ghost predicate Listed(domain: Text, entries: set<Text>) {
    exists i :: ListedAt(domain, entries, i)
  }

  // The suffix from i on starts a label and is listed.
  ghost predicate ListedAt(domain: Text, entries: set<Text>, i: int) {
    0 <= i < |domain| && (i == 0 || domain[i - 1] == '.') && domain[i..] in entries
  }

  // str.partition: what follows the first dot.
  function AfterDot(domain: Text): (rest: Text)
    ensures |rest| <= |domain| && (domain != "" ==> |rest| < |domain|)
  {
    if domain == "" then "" else if domain[0] == '.' then domain[1..] else AfterDot(domain[1..])
  }

  lemma {:induction false} NoDotBefore(domain: Text)
    ensures var n := |domain| - |AfterDot(domain)|;
      && domain[n..] == AfterDot(domain)
      && (forall i :: 0 <= i < n - 1 ==> domain[i] != '.')
      && (AfterDot(domain) != "" ==> n >= 1 && domain[n - 1] == '.')
  {
    if domain != "" && domain[0] != '.' {
      NoDotBefore(domain[1..]);
      var n := |domain| - |AfterDot(domain)|;
      assert forall i :: 0 < i < n - 1 ==> domain[i] == domain[1..][i - 1];
    }
  }

  lemma ShiftSuffix(domain: Text, entries: set<Text>, n: nat, i: nat)
    requires n + i < |domain| && n >= 1 && domain[n - 1] == '.'
    ensures ListedAt(domain[n..], entries, i) <==> ListedAt(domain, entries, n + i)
  {
  }

  lemma ListedInParent(domain: Text, entries: set<Text>, n: nat)
    requires 1 <= n <= |domain| && (forall i :: 0 <= i < n - 1 ==> domain[i] != '.')
    requires (n < |domain| ==> domain[n - 1] == '.')
    requires Listed(domain, entries) && domain !in entries
    ensures Listed(domain[n..], entries)
  {
    var i :| ListedAt(domain, entries, i);
    assert domain[0..] == domain;
    ShiftSuffix(domain, entries, n, i - n);
  }

  lemma ListedByParent(domain: Text, entries: set<Text>, n: nat)
    requires 1 <= n <= |domain| && (n < |domain| ==> domain[n - 1] == '.')
    requires Listed(domain[n..], entries)
    ensures Listed(domain, entries)
  {
    var i :| ListedAt(domain[n..], entries, i);
    ShiftSuffix(domain, entries, n, i);
  }

  // Past the first label, the listed suffixes are those of the parent.
  lemma ParentListed(domain: Text, entries: set<Text>)
    requires domain != ""
    ensures Listed(domain, entries) <==> domain in entries || Listed(AfterDot(domain), entries)
  {
    NoDotBefore(domain);
    var n := |domain| - |AfterDot(domain)|;
    if domain in entries {
      assert domain[0..] == domain;
      assert ListedAt(domain, entries, 0);
    } else if Listed(domain, entries) {
      ListedInParent(domain, entries, n);
    }
    if Listed(AfterDot(domain), entries) { ListedByParent(domain, entries, n); }
  }

  /** The loop that shortens the domain label by label finds exactly the listed ones. */
  method DomainInSet(domain: Text, entries: set<Text>) returns (found: bool)
    ensures found <==> Listed(domain, entries)
  {
    var rest := domain;
    while rest != ""
      invariant Listed(domain, entries) <==> Listed(rest, entries)
      decreases |rest|
    {
      ParentListed(rest, entries);
      if rest in entries { return true; }
      rest := AfterDot(rest);
    }
    found := false;
  }

  /** A call that fails and leaves the new rules in place: it is interrupted right after the rename. */
  lemma InterruptedExample()
    ensures var input := Input("1", map[], "", "", "", "");
      var c := Script(Some(input), Some(input), Some(input), true, Interrupted, true, Written, true);
      var r := Generate(_ => Some("new"), State(Some("old"), None), c);
      r.outcome.Failed? && r.state.output == Some("new")
  {
    assert "new" != "old";
  }
}
