/**
 The bounded queue of DNS queries over a cache with lifetimes (load_cache and resolve_queue in
 app/route_dns_batch.py:192-275).  Queries complete in any order, several at a time; the answer does not depend on it.
 */
module DnsQueue {
  import opened Wrappers

  type Query = string
  type Address = string

  datatype Entry = Entry(values: seq<Address>, saved: real, until: real)

  datatype Response = Response(values: seq<Address>, ttl: int, succeeded: bool)

  type Cache = map<Query, Entry>

  const MAX_QUERIES := 32768
  const MAX_AGE := 600.0
  const MAX_LIFETIME := 300

  // What load_cache keeps of a stored cache.
  predicate Usable(e: Entry, now: real) {
    0.0 <= now - e.saved <= MAX_AGE && e.until <= e.saved + MAX_LIFETIME as real && |e.values| <= 256
  }

  function Loaded(stored: Cache, now: real): Cache {
    map q | q in stored && Usable(stored[q], now) :: stored[q]
  }

  predicate Live(cache: Cache, q: Query, now: real) {
    q in cache && cache[q].until > now
  }

  function Filtered(keep: (Query, Address) -> bool, q: Query, values: seq<Address>): seq<Address> {
    if values == [] then []
    else (if keep(q, values[0]) then [values[0]] else []) + Filtered(keep, q, values[1..])
  }

  // What one query returns: a live entry's values, a good response's, or after a failure an old entry's.
  function Answer(keep: (Query, Address) -> bool, cache: Cache, q: Query, r: Response, now: real): seq<Address> {
    if Live(cache, q, now) || (!r.succeeded && q in cache) then Filtered(keep, q, cache[q].values) else r.values
  }

  // What the cache holds for the query afterwards.
  function Kept(cache: Cache, q: Query, r: Response, now: real): Option<Entry> {
    if !Live(cache, q, now) && r.succeeded then
      if r.ttl > 0 then Some(Entry(r.values, now, now + Min(MAX_LIFETIME, r.ttl) as real)) else None
    else if q in cache then Some(cache[q]) else None
  }

  // The cache and the results once the queries in `done` have been dealt with.
  ghost predicate Dealt(keep: (Query, Address) -> bool, loaded: Cache, now: real, responses: map<Query, Response>,
                        done: set<Query>, cache: Cache, results: map<Query, seq<Address>>)
    requires done <= responses.Keys
  {
    && results.Keys == done
    && (forall q :: q in done ==> results[q] == Answer(keep, loaded, q, responses[q], now))
    && (forall q :: q in done ==> (if q in cache then Some(cache[q]) else None) == Kept(loaded, q, responses[q], now))
    && (forall q :: q !in done ==> (q in cache <==> q in loaded) && (q in loaded ==> cache[q] == loaded[q]))
  }

  datatype Stats = Stats(cached: nat, requested: nat, failed: nat, stale: nat)

  ghost function Elements(queries: seq<Query>): set<Query> {
    set q | q in queries
  }

  // One finished query.
  method Complete(keep: (Query, Address) -> bool, ghost loaded: Cache, now: real, responses: map<Query, Response>,
                  q: Query,
                  ghost done: set<Query>, cache0: Cache, results0: map<Query, seq<Address>>)
    returns (cache: Cache, results: map<Query, seq<Address>>)
    requires done <= responses.Keys && q in responses && q !in done && !Live(loaded, q, now)
    requires Dealt(keep, loaded, now, responses, done, cache0, results0)
    ensures Dealt(keep, loaded, now, responses, done + {q}, cache, results)
  {
    cache, results := cache0, results0;
    var r := responses[q];
    results := results[q := r.values];
    if r.succeeded && r.ttl > 0 {
      cache := cache[q := Entry(r.values, now, now + Min(MAX_LIFETIME, r.ttl) as real)];
    } else if !r.succeeded {
      if q in cache { results := results[q := Filtered(keep, q, cache[q].values)]; }
    } else {
      cache := cache - {q};
    }
  }

  // The first pass: live entries answer at once, the other queries wait.
  method FirstPass(keep: (Query, Address) -> bool, queries: seq<Query>, loaded: Cache, now: real,
                   responses: map<Query, Response>)
    returns (results: map<Query, seq<Address>>, pending: seq<Query>)
    requires NoRepeats(queries) && Elements(queries) <= responses.Keys
    ensures NoRepeats(pending) && forall q :: q in pending <==> q in queries && !Live(loaded, q, now)
    ensures Dealt(keep, loaded, now, responses, Elements(queries) - Elements(pending), loaded, results)
  {
    results, pending := map[], [];
    for i := 0 to |queries|
      invariant NoRepeats(pending) && forall q :: q in pending <==> q in queries[..i] && !Live(loaded, q, now)
      invariant Dealt(keep, loaded, now, responses, Elements(queries[..i]) - Elements(pending), loaded, results)
    {
      var q := queries[i];
      assert q in queries;
      assert queries[..i + 1] == queries[..i] + [q];
      assert q !in queries[..i];
      if q in loaded && loaded[q].until > now {
        assert Elements(queries[..i + 1]) - Elements(pending) == Elements(queries[..i]) - Elements(pending) + {q};
        results := results[q := Filtered(keep, q, loaded[q].values)];
      } else {
        assert Elements(queries[..i + 1]) - Elements(pending + [q]) == Elements(queries[..i]) - Elements(pending);
        pending := pending + [q];
      }
    }
    assert queries[..|queries|] == queries;
  }

  // Of all queries, some are in flight and some wait; none of them has a live entry.
  ghost predicate InQueue(loaded: Cache, now: real, all: set<Query>, active: set<Query>, waiting: seq<Query>) {
    && active <= all && Elements(waiting) <= all && active !! Elements(waiting) && NoRepeats(waiting)
    && forall q :: q in active || q in waiting ==> !Live(loaded, q, now)
  }

  ghost function Done(all: set<Query>, active: set<Query>, waiting: seq<Query>): set<Query> {
    all - active - Elements(waiting)
  }

  // Submitting the next query finishes none.
  lemma Submitted(loaded: Cache, now: real, all: set<Query>, active: set<Query>, waiting: seq<Query>)
    requires InQueue(loaded, now, all, active, waiting) && waiting != []
    ensures InQueue(loaded, now, all, active + {waiting[0]}, waiting[1..])
    ensures Done(all, active + {waiting[0]}, waiting[1..]) == Done(all, active, waiting) && waiting[0] !in active
  {
  }

  method Refill(ghost loaded: Cache, now: real, ghost all: set<Query>, active0: set<Query>, waiting0: seq<Query>,
                room: nat)
    returns (active: set<Query>, waiting: seq<Query>)
    requires InQueue(loaded, now, all, active0, waiting0) && |active0| <= room && room > 0
    ensures InQueue(loaded, now, all, active, waiting) && |active| <= room
    ensures |active| + |waiting| == |active0| + |waiting0|
    ensures Done(all, active, waiting) == Done(all, active0, waiting0) && |waiting| <= |waiting0|
    ensures active == {} ==> waiting == []
  {
    active, waiting := active0, waiting0;
    while |active| < room && waiting != []
      invariant InQueue(loaded, now, all, active, waiting) && |active| <= room
      invariant |active| + |waiting| == |active0| + |waiting0|
      invariant Done(all, active, waiting) == Done(all, active0, waiting0) && |waiting| <= |waiting0|
      decreases |waiting|
    {
      Submitted(loaded, now, all, active, waiting);
      active, waiting := active + {waiting[0]}, waiting[1..];
    }
  }

  lemma Finished(loaded: Cache, now: real, all: set<Query>, active: set<Query>, waiting: seq<Query>, q: Query)
    requires InQueue(loaded, now, all, active, waiting) && q in active
    ensures InQueue(loaded, now, all, active - {q}, waiting)
    ensures Done(all, active - {q}, waiting) == Done(all, active, waiting) + {q} && q !in Done(all, active, waiting)
  {
  }

  lemma RemoveOne(others: set<Query>, some: set<Query>, q: Query)
    requires q in some && q !in others
    ensures others + some - {q} == others + (some - {q})
  {
  }

  // The queries that just finished, one by one.
  method TakeFinished(keep: (Query, Address) -> bool, ghost loaded: Cache, now: real, responses: map<Query, Response>,
                      ghost all: set<Query>,
                      active0: set<Query>, ghost waiting: seq<Query>, finished: set<Query>, cache0: Cache,
                      answers0: map<Query, seq<Address>>)
    returns (active: set<Query>, cache: Cache, answers: map<Query, seq<Address>>)
    requires InQueue(loaded, now, all, active0, waiting) && finished <= active0 && all <= responses.Keys
    requires Dealt(keep, loaded, now, responses, Done(all, active0, waiting), cache0, answers0)
    ensures active == active0 - finished && InQueue(loaded, now, all, active, waiting)
    ensures Dealt(keep, loaded, now, responses, Done(all, active, waiting), cache, answers)
  {
    active, cache, answers := active0, cache0, answers0;
    var rest := finished;
    while rest != {}
      invariant rest <= finished && active == (active0 - finished) + rest
      invariant InQueue(loaded, now, all, active, waiting)
      invariant Dealt(keep, loaded, now, responses, Done(all, active, waiting), cache, answers)
      decreases |rest|
    {
      var q :| q in rest;
      Finished(loaded, now, all, active, waiting, q);
      ghost var done := Done(all, active, waiting);
      RemoveOne(active0 - finished, rest, q);
      active, rest := active - {q}, rest - {q};
      cache, answers := Complete(keep, loaded, now, responses, q, done, cache, answers);
    }
  }

  lemma Fewer(all: set<Query>, some: set<Query>)
    requires some != {} && some <= all
    ensures |all - some| == |all| - |some| && |some| > 0
  {
  }

  /** The whole queue: whatever completes first, each waiting query is asked once, at most sixteen are in flight, and
      results and cache are those of the queries one by one. */
  method ResolveQueue(keep: (Query, Address) -> bool, queries: seq<Query>, stored: Cache, now: real, workers: int,
                      responses: map<Query, Response>)
    returns (results: Option<map<Query, seq<Address>>>, cache: Cache, requested: nat, peak: nat)
    requires NoRepeats(queries) && Elements(queries) <= responses.Keys
    ensures results.None? <==> |queries| > MAX_QUERIES
    ensures results.Some? ==> Dealt(keep, Loaded(stored, now), now, responses, Elements(queries), cache, results.value)
    ensures results.Some? ==> requested == |Unanswered(Loaded(stored, now), queries, now)|
    ensures peak <= 2 * Max(1, Min(8, workers)) <= 16
  {
    results, cache, requested, peak := None, stored, 0, 0;
    if |queries| > MAX_QUERIES { return; }
    var room := 2 * Max(1, Min(8, workers));
    var loaded := Loaded(stored, now);
    ghost var all := Elements(queries);
    var answers, waiting := FirstPass(keep, queries, loaded, now, responses);
    PendingCount(waiting);
    assert Elements(waiting) == Unanswered(loaded, queries, now);
    ghost var total := |waiting|;
    cache := loaded;
    assert Done(all, {}, waiting) == all - Elements(waiting);
    var active;
    active, waiting := Refill(loaded, now, all, {}, waiting, room);
    while active != {}
      invariant InQueue(loaded, now, all, active, waiting) && |active| <= room && (active == {} ==> waiting == [])
      invariant requested + |active| + |waiting| == total && peak <= room
      invariant Dealt(keep, loaded, now, responses, Done(all, active, waiting), cache, answers)
      decreases |waiting| + |active|
    {
      peak := Max(peak, |active|);
      var finished: set<Query> :| finished != {} && finished <= active;
      Fewer(active, finished);
      requested := requested + |finished|;
      active, cache, answers := TakeFinished(keep, loaded, now, responses, all, active, waiting, finished, cache,
                                             answers);
      active, waiting := Refill(loaded, now, all, active, waiting, room);
    }
    assert Done(all, active, waiting) == all;
    results := Some(answers);
  }

  ghost function Unanswered(loaded: Cache, queries: seq<Query>, now: real): set<Query> {
    set q | q in queries && !Live(loaded, q, now)
  }

  lemma {:induction false} PendingCount(pending: seq<Query>)
    requires NoRepeats(pending)
    ensures |Elements(pending)| == |pending|
  {
    if pending != [] {
      var front, q := pending[..|pending| - 1], pending[|pending| - 1];
      PendingCount(front);
      assert pending == front + [q];
      assert Elements(pending) == Elements(front) + {q};
      assert q !in front;
    }
  }

  // ---------------------------------------------------------------------------------------------
  // What a result holds.

  // The filter keeps exactly the values that pass, part by part and so in their order.
  lemma {:induction false} FilterMeans(keep: (Query, Address) -> bool, q: Query, a: seq<Address>, b: seq<Address>)
    ensures forall v :: v in Filtered(keep, q, a) <==> v in a && keep(q, v)
    ensures Filtered(keep, q, a + b) == Filtered(keep, q, a) + Filtered(keep, q, b)
  {
    if a == [] {
      assert a + b == b;
    } else {
      assert (a + b)[0] == a[0] && (a + b)[1..] == a[1..] + b && a == [a[0]] + a[1..];
      FilterMeans(keep, q, a[1..], b);
    }
  }

  // The result is that part of the values.
  ghost predicate Passing(keep: (Query, Address) -> bool, q: Query, values: seq<Address>, result: seq<Address>) {
    && result == Filtered(keep, q, values)
    && forall v :: v in result <==> v in values && keep(q, v)
  }

  /** What one call remembers, a later one finds for 600 seconds unless it has more than 256 values, and answers with as
      long as its lifetime has not passed. */
  lemma RememberedIsFound(loaded: Cache, q: Query, r: Response, now: real, later: real)
    requires !Live(loaded, q, now) && r.succeeded && r.ttl > 0 && now <= later
    ensures var e := Kept(loaded, q, r, now);
      && e.Some?
      && (q in Loaded(map[q := e.value], later) <==> later <= now + 600.0 && |r.values| <= 256)
      && (Live(Loaded(map[q := e.value], later), q, later) <==>
            later < now + r.ttl as real && later < now + 300.0 && |r.values| <= 256)
  {
  }

  /** Each query, whatever else was asked: a live entry answers with its values that pass the filter, and a failed query
      with those of an old entry, which both stay as they are; a good response answers with its own values and is
      remembered for at most 300 seconds, or takes the entry's place with nothing if it has no lifetime. */
  lemma ResultsMean(keep: (Query, Address) -> bool, loaded: Cache, now: real, responses: map<Query, Response>,
                    done: set<Query>, cache: Cache, results: map<Query, seq<Address>>, q: Query)
    requires done <= responses.Keys && q in done && Dealt(keep, loaded, now, responses, done, cache, results)
    ensures var r := responses[q];
      if q in loaded && (loaded[q].until > now || !r.succeeded) then
        Passing(keep, q, loaded[q].values, results[q]) && q in cache && cache[q] == loaded[q]
      else
        && results[q] == r.values
        && (r.succeeded && r.ttl > 0 ==>
              q in cache && cache[q].values == r.values && cache[q].saved == now
              && now < cache[q].until <= now + 300.0
              && (r.ttl <= 300 ==> cache[q].until == now + r.ttl as real)
              && (r.ttl > 300 ==> cache[q].until == now + 300.0))
        && (!r.succeeded || r.ttl <= 0 ==> q !in cache)
  {
    if q in loaded { FilterMeans(keep, q, loaded[q].values, []); }
  }

  // ---------------------------------------------------------------------------------------------
  // Runs: the age of what is served.

  // A response that a query got, and when.
  datatype Fetched = Fetched(query: Query, at: real, response: Response)

  // The entry is that good response of that time, for as long as it allowed and at most 300 seconds.
  ghost predicate Stores(e: Entry, q: Query, f: Fetched) {
    && f.query == q && f.at == e.saved && f.response.values == e.values && f.response.succeeded && f.response.ttl > 0
    && e.until == f.at + Min(MAX_LIFETIME, f.response.ttl) as real
  }

  ghost predicate Traced(cache: Cache, history: set<Fetched>) {
    forall q :: q in cache ==> exists f :: f in history && Stores(cache[q], q, f)
  }

  // An old answer: young enough, and alive or better than none.
  ghost predicate Serves(keep: (Query, Address) -> bool, f: Fetched, q: Query, r: Response, now: real,
                         served: seq<Address>) {
    && f.query == q && f.response.succeeded && 0.0 <= now - f.at <= MAX_AGE
    && served == Filtered(keep, q, f.response.values)
    && (!r.succeeded || now < f.at + Min(MAX_LIFETIME, f.response.ttl) as real)
  }

  ghost function Asked(loaded: Cache, queries: set<Query>, responses: map<Query, Response>, now: real): set<Fetched>
    requires queries <= responses.Keys
  {
    set q | q in queries && !Live(loaded, q, now) :: Fetched(q, now, responses[q])
  }

  /** One call of a run, for any part of its cache that is written back: entries stay traced, and each answer is a
      fresh response's, or that of a good response for the same query at most 600 seconds old, and then either still
      alive, so less than 300 seconds old, or served because the query just failed. */
  lemma CallIsTraced(keep: (Query, Address) -> bool, stored: Cache, history: set<Fetched>, now: real,
                     responses: map<Query, Response>,
                     queries: set<Query>, cache: Cache, results: map<Query, seq<Address>>, written: Cache)
    requires queries <= responses.Keys && Traced(stored, history)
    requires Dealt(keep, Loaded(stored, now), now, responses, queries, cache, results)
    requires forall q :: q in written ==> q in cache && written[q] == cache[q]
    ensures Traced(written, history + Asked(Loaded(stored, now), queries, responses, now))
    ensures forall q :: q in queries ==>
      results[q] == responses[q].values || exists f :: f in history && Serves(keep, f, q, responses[q], now, results[q])
  {
    var loaded := Loaded(stored, now);
    var after := history + Asked(loaded, queries, responses, now);
    forall q | q in written ensures exists f :: f in after && Stores(written[q], q, f) {
      if q in queries && !Live(loaded, q, now) && responses[q].succeeded {
        assert Stores(written[q], q, Fetched(q, now, responses[q]));
      } else {
        assert q in stored && cache[q] == stored[q];
      }
    }
    forall q | q in queries && results[q] != responses[q].values
      ensures exists f :: f in history && Serves(keep, f, q, responses[q], now, results[q])
    {
      var f :| f in history && Stores(stored[q], q, f);
      assert Serves(keep, f, q, responses[q], now, results[q]);
    }
  }
}
