/**
 Several subscriptions feeding one protocol's key pool (app/subscription_runtime.py:211-245, 310-346, with the list
 helpers of app/key_pool_store.py:53-84).  Keys are taken as already stripped texts; `bad` holds the error
 placeholders.
 */
module Subscriptions {
  import opened Wrappers

  type Key = string
  type Url = string

  // Drop empty keys and repeats, keeping the first of each.
  function Dedupe(keys: seq<Key>): seq<Key> {
    if keys == [] then []
    else
      var before, k := Dedupe(keys[..|keys| - 1]), keys[|keys| - 1];
      if k == "" || k in before then before else before + [k]
  }

  function Without(keys: seq<Key>, drop: set<Key>): seq<Key> {
    if keys == [] then []
    else
      var before, k := Without(keys[..|keys| - 1], drop), keys[|keys| - 1];
      if k in drop then before else before + [k]
  }

  function Keys(keys: seq<Key>): set<Key> {
    set k | k in keys
  }

  datatype Synced = Synced(pool: seq<Key>, added: seq<Key>, removed: seq<Key>, managed: seq<Key>)

  // The keys that one sync may take out of the pool.
  function Dropped(managed: seq<Key>, previous: seq<Key>, preserve: seq<Key>, shared: set<Key>): set<Key> {
    Keys(Dedupe(previous)) - Keys(managed) - (Keys(Dedupe(preserve)) + shared)
  }

  function Current(bad: set<Key>, pool: seq<Key>): seq<Key> {
    Without(Dedupe(pool), bad)
  }

  // The preserved keys that this source managed before and does not list now.
  function Retained(preserve: seq<Key>, managed: seq<Key>, previous: seq<Key>): seq<Key> {
    Without(Dedupe(preserve), Keys(managed) + (Keys(Dedupe(preserve)) - Keys(Dedupe(previous))))
  }

  function Sync(bad: set<Key>, pool: seq<Key>, fetched: seq<Key>, previous: seq<Key>, preserve: seq<Key>,
                shared: set<Key>): Synced {
    var managed := Dedupe(fetched);
    var drop := Dropped(managed, previous, preserve, shared);
    var current := Current(bad, pool);
    var kept := Without(current, drop);
    var added := Without(managed, Keys(kept));
    Synced(kept + added, added, Without(current, Keys(current) - drop),
           Dedupe(managed + Retained(preserve, managed, previous)))
  }

  // ---------------------------------------------------------------------------------------------
  // The list helpers.

  lemma {:induction false} DedupeFacts(keys: seq<Key>)
    ensures NoRepeats(Dedupe(keys))
    ensures forall k :: k in Dedupe(keys) <==> k in keys && k != ""
  {
    if keys != [] { DedupeFacts(keys[..|keys| - 1]); }
  }

  lemma {:induction false} WithoutFacts(keys: seq<Key>, drop: set<Key>)
    requires NoRepeats(keys)
    ensures NoRepeats(Without(keys, drop))
    ensures forall k :: k in Without(keys, drop) <==> k in keys && k !in drop
  {
    if keys != [] { WithoutFacts(keys[..|keys| - 1], drop); }
  }

  lemma {:induction false} WithoutNone(keys: seq<Key>, drop: set<Key>)
    requires forall k :: k in keys ==> k !in drop
    ensures Without(keys, drop) == keys
  {
    if keys != [] {
      WithoutNone(keys[..|keys| - 1], drop);
      assert keys == keys[..|keys| - 1] + [keys[|keys| - 1]];
    }
  }

  lemma {:induction false} WithoutAll(keys: seq<Key>, drop: set<Key>)
    requires forall k :: k in keys ==> k in drop
    ensures Without(keys, drop) == []
  {
    if keys != [] { WithoutAll(keys[..|keys| - 1], drop); }
  }

  lemma {:induction false} DedupeClean(keys: seq<Key>)
    requires NoRepeats(keys) && "" !in keys
    ensures Dedupe(keys) == keys
  {
    if keys != [] {
      DedupeClean(keys[..|keys| - 1]);
      assert keys == keys[..|keys| - 1] + [keys[|keys| - 1]];
    }
  }

  // ---------------------------------------------------------------------------------------------
  // One sync.

  lemma CurrentFacts(bad: set<Key>, pool: seq<Key>)
    ensures NoRepeats(Current(bad, pool)) && forall k :: k in Current(bad, pool) <==> k in pool && k != "" && k !in bad
  {
    DedupeFacts(pool);
    WithoutFacts(Dedupe(pool), bad);
  }

  lemma RetainedFacts(preserve: seq<Key>, managed: seq<Key>, previous: seq<Key>)
    ensures NoRepeats(Retained(preserve, managed, previous))
    ensures forall k :: k in Retained(preserve, managed, previous) <==>
              k in preserve && k in previous && k != "" && k !in managed
  {
    DedupeFacts(preserve);
    DedupeFacts(previous);
    WithoutFacts(Dedupe(preserve), Keys(managed) + (Keys(Dedupe(preserve)) - Keys(Dedupe(previous))));
  }

  lemma DroppedFacts(fetched: seq<Key>, previous: seq<Key>, preserve: seq<Key>, shared: set<Key>)
    ensures forall k :: k in Dropped(Dedupe(fetched), previous, preserve, shared) <==>
              k in previous && k != "" && k !in fetched && k !in preserve && k !in shared
  {
    DedupeFacts(fetched);
    DedupeFacts(previous);
    DedupeFacts(preserve);
  }

  lemma Joined(a: seq<Key>, b: seq<Key>)
    requires NoRepeats(a) && NoRepeats(b) && forall k :: k in a ==> k !in b
    ensures NoRepeats(a + b) && forall k :: k in a + b <==> k in a || k in b
  {
    forall i, j | 0 <= i < j < |a + b| ensures (a + b)[i] != (a + b)[j] {
      assert i < |a| ==> (a + b)[i] in a;
      assert j >= |a| ==> (a + b)[j] in b;
    }
  }

  // The managed list of a sync has no repeats to begin with.
  lemma ManagedIs(fetched: seq<Key>, previous: seq<Key>, preserve: seq<Key>)
    ensures var managed := Dedupe(fetched); var all := managed + Retained(preserve, managed, previous);
      Dedupe(all) == all && forall k :: k in all <==> k != "" && (k in fetched || (k in preserve && k in previous))
  {
    var managed := Dedupe(fetched);
    DedupeFacts(fetched);
    RetainedFacts(preserve, managed, previous);
    Joined(managed, Retained(preserve, managed, previous));
    DedupeClean(managed + Retained(preserve, managed, previous));
  }

  // What a sync keeps of the pool, takes out and adds.
  lemma PoolFacts(bad: set<Key>, pool: seq<Key>, fetched: seq<Key>, previous: seq<Key>, preserve: seq<Key>,
                  shared: set<Key>)
    ensures var drop := Dropped(Dedupe(fetched), previous, preserve, shared); var current := Current(bad, pool);
      var kept := Without(current, drop); var added := Without(Dedupe(fetched), Keys(kept));
      && NoRepeats(kept + added)
      && (forall k :: k in kept <==> k in current && k !in drop)
      && (forall k :: k in added <==> k in fetched && k != "" && k !in kept)
      && (forall k :: k in Without(current, Keys(current) - drop) <==> k in current && k in drop)
  {
    var drop, current := Dropped(Dedupe(fetched), previous, preserve, shared), Current(bad, pool);
    DedupeFacts(fetched);
    CurrentFacts(bad, pool);
    WithoutFacts(current, drop);
    WithoutFacts(current, Keys(current) - drop);
    WithoutFacts(Dedupe(fetched), Keys(Without(current, drop)));
    Joined(Without(current, drop), Without(Dedupe(fetched), Keys(Without(current, drop))));
  }

  /** The new pool: what was there in its order, less placeholders and dropped keys, then the new fetched keys in
      theirs; every managed key of the source that was pooled or fetched is in it, and a key leaves only if this
      source managed it and does not list it now, nobody preserves it, and no other source lists it. */
  lemma SyncMeans(bad: set<Key>, pool: seq<Key>, fetched: seq<Key>, previous: seq<Key>, preserve: seq<Key>,
                  shared: set<Key>)
    ensures var s := Sync(bad, pool, fetched, previous, preserve, shared);
      && NoRepeats(s.pool) && s.pool[|s.pool| - |s.added|..] == s.added
      && (forall k :: k in s.pool <==> k != "" && (k in fetched || (k in pool && k !in bad && k !in s.removed)))
      && (forall k :: k in s.added <==> k != "" && k in fetched && (k !in pool || k in bad))
      && (forall k :: k in s.removed <==>
            k != "" && k in pool && k !in bad && k in previous && k !in fetched && k !in preserve && k !in shared)
      && (forall k :: k in s.managed <==> k != "" && (k in fetched || (k in preserve && k in previous)))
  {
    PoolFacts(bad, pool, fetched, previous, preserve, shared);
    CurrentFacts(bad, pool);
    DroppedFacts(fetched, previous, preserve, shared);
    ManagedIs(fetched, previous, preserve);
  }

  /** Repeating a sync with its own result gives the same managed list and removes nothing, and it leaves the pool
      as it is exactly when no placeholder is among the fetched keys. */
  lemma SyncTwice(bad: set<Key>, pool: seq<Key>, fetched: seq<Key>, previous: seq<Key>, preserve: seq<Key>,
                  shared: set<Key>)
    ensures var s := Sync(bad, pool, fetched, previous, preserve, shared);
      var again := Sync(bad, s.pool, fetched, s.managed, preserve, shared);
      && again.managed == s.managed && again.removed == []
      && (again == Synced(s.pool, [], [], s.managed) <==> forall k :: k in fetched && k != "" ==> k !in bad)
  {
    var s := Sync(bad, pool, fetched, previous, preserve, shared);
    RetainedTwice(fetched, previous, preserve);
    SecondSync(bad, pool, fetched, previous, preserve, shared);
    if forall k :: k in fetched && k != "" ==> k !in bad {
      Unchanged(bad, pool, fetched, previous, preserve, shared);
    }
  }

  lemma SecondSync(bad: set<Key>, pool: seq<Key>, fetched: seq<Key>, previous: seq<Key>, preserve: seq<Key>,
                   shared: set<Key>)
    ensures var s := Sync(bad, pool, fetched, previous, preserve, shared);
      var again := Sync(bad, s.pool, fetched, s.managed, preserve, shared);
      && again.removed == []
      && (again.added == [] <==> forall k :: k in fetched && k != "" ==> k !in bad)
  {
    var s := Sync(bad, pool, fetched, previous, preserve, shared);
    var again := Sync(bad, s.pool, fetched, s.managed, preserve, shared);
    SyncMeans(bad, pool, fetched, previous, preserve, shared);
    SyncMeans(bad, s.pool, fetched, s.managed, preserve, shared);
    NoMembers(again.removed);
    NoMembers(again.added);
  }

  lemma NoMembers(keys: seq<Key>)
    ensures keys == [] <==> forall k :: k !in keys
  {
    if keys != [] { assert keys[0] in keys; }
  }

  lemma RetainedTwice(fetched: seq<Key>, previous: seq<Key>, preserve: seq<Key>)
    ensures var managed := Dedupe(fetched);
      var all := Dedupe(managed + Retained(preserve, managed, previous));
      Dedupe(managed + Retained(preserve, managed, all)) == all
  {
    var managed := Dedupe(fetched);
    ManagedIs(fetched, previous, preserve);
    var all := Dedupe(managed + Retained(preserve, managed, previous));
    ManagedIs(fetched, all, preserve);
    DedupeFacts(fetched);
    DedupeFacts(preserve);
    DedupeFacts(previous);
    DedupeFacts(all);
    WithoutSame(Dedupe(preserve), Keys(managed) + (Keys(Dedupe(preserve)) - Keys(Dedupe(previous))),
                Keys(managed) + (Keys(Dedupe(preserve)) - Keys(Dedupe(all))));
  }

  lemma {:induction false} WithoutSame(keys: seq<Key>, a: set<Key>, b: set<Key>)
    requires forall k :: k in keys ==> (k in a <==> k in b)
    ensures Without(keys, a) == Without(keys, b)
  {
    if keys != [] { WithoutSame(keys[..|keys| - 1], a, b); }
  }

  lemma Unchanged(bad: set<Key>, pool: seq<Key>, fetched: seq<Key>, previous: seq<Key>, preserve: seq<Key>,
                  shared: set<Key>)
    requires forall k :: k in fetched && k != "" ==> k !in bad
    ensures var s := Sync(bad, pool, fetched, previous, preserve, shared);
      Sync(bad, s.pool, fetched, s.managed, preserve, shared).pool == s.pool
  {
    var s := Sync(bad, pool, fetched, previous, preserve, shared);
    SyncMeans(bad, pool, fetched, previous, preserve, shared);
    DedupeFacts(fetched);
    DedupeClean(s.pool);
    WithoutNone(s.pool, bad);
    var drop := Dropped(Dedupe(fetched), s.managed, preserve, shared);
    DroppedFacts(fetched, s.managed, preserve, shared);
    WithoutNone(s.pool, drop);
    WithoutAll(Dedupe(fetched), Keys(s.pool));
    assert s.pool + [] == s.pool;
  }

  // ---------------------------------------------------------------------------------------------
  // The code's loops.

  method DedupeKeyList(keys: seq<Key>) returns (result: seq<Key>)
    ensures result == Dedupe(keys)
  {
    result := [];
    var seen: set<Key> := {};
    for i := 0 to |keys|
      invariant result == Dedupe(keys[..i]) && forall k :: k in seen <==> k in result
    {
      assert keys[..i + 1][..i] == keys[..i];
      if keys[i] != "" && keys[i] !in seen {
        seen := seen + {keys[i]};
        result := result + [keys[i]];
      }
    }
    assert keys[..|keys|] == keys;
  }

  lemma WithoutNext(keys: seq<Key>, i: nat, drop: set<Key>)
    requires i < |keys|
    ensures Without(keys[..i + 1], drop) == Without(keys[..i], drop) + if keys[i] in drop then [] else [keys[i]]
  {
    assert keys[..i + 1][..i] == keys[..i];
  }

  method SplitPool(current: seq<Key>, drop: set<Key>) returns (kept: seq<Key>, removed: seq<Key>)
    ensures kept == Without(current, drop) && removed == Without(current, Keys(current) - drop)
  {
    kept, removed := [], [];
    for i := 0 to |current|
      invariant kept == Without(current[..i], drop)
      invariant removed == Without(current[..i], Keys(current) - drop)
    {
      WithoutNext(current, i, drop);
      WithoutNext(current, i, Keys(current) - drop);
      if current[i] in drop { removed := removed + [current[i]]; } else { kept := kept + [current[i]]; }
    }
    assert current[..|current|] == current;
  }

  method AddMissing(kept: seq<Key>, managed: seq<Key>) returns (pool: seq<Key>, added: seq<Key>)
    requires NoRepeats(managed)
    ensures added == Without(managed, Keys(kept)) && pool == kept + added
  {
    pool, added := kept, [];
    var existing := Keys(kept);
    for i := 0 to |managed|
      invariant added == Without(managed[..i], Keys(kept)) && pool == kept + added
      invariant forall k :: k in existing <==> k in kept || k in managed[..i]
    {
      WithoutNext(managed, i, Keys(kept));
      assert managed[i] !in managed[..i];
      assert managed[..i + 1] == managed[..i] + [managed[i]];
      if managed[i] !in existing {
        pool := pool + [managed[i]];
        added := added + [managed[i]];
      }
      existing := existing + {managed[i]};
    }
    assert managed[..|managed|] == managed;
  }

  /** One sync, with its pass over the pool and its pass over the fetched keys. */
  method SyncSubscriptionKeys(bad: set<Key>, pool: seq<Key>, fetched: seq<Key>, previous: seq<Key>, preserve: seq<Key>,
                              shared: set<Key>)
    returns (synced: Synced)
    ensures synced == Sync(bad, pool, fetched, previous, preserve, shared)
  {
    var managed := DedupeKeyList(fetched);
    var earlier := DedupeKeyList(previous);
    var preserved := DedupeKeyList(preserve);
    var pooled := DedupeKeyList(pool);
    var kept, removed := SplitPool(Without(pooled, bad), Keys(earlier) - Keys(managed) - (Keys(preserved) + shared));
    DedupeFacts(fetched);
    var after, added := AddMissing(kept, managed);
    var stored := DedupeKeyList(managed + Retained(preserve, managed, previous));
    synced := Synced(after, added, removed, stored);
  }

  // ---------------------------------------------------------------------------------------------
  // Runs over several sources.

  datatype Source = Source(managed: seq<Key>, imported: seq<Key>)

  datatype State = State(pool: seq<Key>, sources: map<Url, Source>)

  datatype Event =
    | Synchronise(url: Url, fetched: seq<Key>, preserve: seq<Key>, imported: seq<Key>)
    | Remove(url: Url)

  // What the other sources list.
  function Others(sources: map<Url, Source>, url: Url): set<Key> {
    set u, k | u in sources && u != url && k in sources[u].managed + sources[u].imported :: k
  }

  function Managed(st: State, url: Url): seq<Key> {
    if url in st.sources then st.sources[url].managed else []
  }

  // The stored record keeps no placeholders.
  function Next(bad: set<Key>, st: State, e: Event): State {
    match e
    case Synchronise(url, fetched, preserve, imported) =>
      var s := Sync(bad, st.pool, fetched, Managed(st, url), preserve, Others(st.sources, url));
      State(s.pool, st.sources[url := Source(Without(s.managed, bad), Without(Dedupe(imported), bad))])
    case Remove(url) => st.(sources := st.sources - {url})
  }

  function Play(bad: set<Key>, events: seq<Event>): State {
    if events == [] then State([], map[]) else Next(bad, Play(bad, events[..|events| - 1]), events[|events| - 1])
  }

  // Every key that the source manages is in the pool.
  ghost predicate Held(bad: set<Key>, st: State, u: Url)
    requires u in st.sources
  {
    forall k :: k in st.sources[u].managed ==> k in st.pool && k != "" && k !in bad
  }

  ghost predicate Inv(bad: set<Key>, st: State) {
    NoRepeats(st.pool) && forall u :: u in st.sources ==> Held(bad, st, u)
  }

  lemma OwnKeysStay(bad: set<Key>, st: State, e: Event, k: Key)
    requires Inv(bad, st) && e.Synchronise?
    requires k in Without(Sync(bad, st.pool, e.fetched, Managed(st, e.url),
                               e.preserve, Others(st.sources, e.url)).managed, bad)
    ensures k in Next(bad, st, e).pool && k != "" && k !in bad
  {
    var s := Sync(bad, st.pool, e.fetched, Managed(st, e.url), e.preserve, Others(st.sources, e.url));
    SyncMeans(bad, st.pool, e.fetched, Managed(st, e.url), e.preserve, Others(st.sources, e.url));
    DedupeFacts(Dedupe(e.fetched) + Retained(e.preserve, Dedupe(e.fetched), Managed(st, e.url)));
    WithoutFacts(s.managed, bad);
  }

  lemma OtherKeysStay(bad: set<Key>, st: State, e: Event, u: Url, k: Key)
    requires Inv(bad, st) && e.Synchronise? && u in st.sources && u != e.url && k in st.sources[u].managed
    ensures k in Next(bad, st, e).pool && k != "" && k !in bad
  {
    assert Held(bad, st, u);
    var shared := Others(st.sources, e.url);
    assert k in shared by { assert k in st.sources[u].managed + st.sources[u].imported; }
    SyncMeans(bad, st.pool, e.fetched, Managed(st, e.url), e.preserve, shared);
    var s := Sync(bad, st.pool, e.fetched, Managed(st, e.url), e.preserve, shared);
    assert k in s.pool;
    assert Next(bad, st, e).pool == s.pool;
  }

  // Every key that a source manages after a sync is in the pool.
  lemma KeysStay(bad: set<Key>, st: State, e: Event, u: Url, k: Key)
    requires Inv(bad, st) && e.Synchronise?
    requires u in Next(bad, st, e).sources && k in Next(bad, st, e).sources[u].managed
    ensures k in Next(bad, st, e).pool && k != "" && k !in bad
  {
    if u == e.url {
      OwnKeysStay(bad, st, e, k);
    } else {
      assert u in st.sources && Next(bad, st, e).sources[u] == st.sources[u];
      OtherKeysStay(bad, st, e, u, k);
    }
  }

  lemma PoolHasNoRepeats(bad: set<Key>, st: State, e: Event)
    requires e.Synchronise?
    ensures NoRepeats(Next(bad, st, e).pool)
  {
    PoolFacts(bad, st.pool, e.fetched, Managed(st, e.url), e.preserve, Others(st.sources, e.url));
  }

  lemma SyncKeepsInv(bad: set<Key>, st: State, e: Event)
    requires Inv(bad, st) && e.Synchronise?
    ensures Inv(bad, Next(bad, st, e))
  {
    PoolHasNoRepeats(bad, st, e);
    var after := Next(bad, st, e);
    forall u | u in after.sources ensures Held(bad, after, u) {
      forall k | k in after.sources[u].managed ensures k in after.pool && k != "" && k !in bad {
        KeysStay(bad, st, e, u, k);
      }
    }
  }

  /** After any sequence of syncs and removals the pool has no repeats and holds every key that a source manages. */
  lemma {:induction false} EveryRunKeepsManaged(bad: set<Key>, events: seq<Event>)
    ensures Inv(bad, Play(bad, events))
  {
    if events != [] {
      EveryRunKeepsManaged(bad, events[..|events| - 1]);
      if events[|events| - 1].Synchronise? {
        SyncKeepsInv(bad, Play(bad, events[..|events| - 1]), events[|events| - 1]);
      }
    }
  }

  /** A key that leaves the pool in a step of a run is a placeholder, or the synced source managed it and stopped
      listing it while no other source lists it: never a key that no source managed. */
  lemma OnlyOwnKeysLeave(bad: set<Key>, events: seq<Event>, e: Event, k: Key)
    requires k in Play(bad, events).pool && k !in Next(bad, Play(bad, events), e).pool && k !in bad && k != ""
    ensures e.Synchronise?
    ensures var st := Play(bad, events);
      && k in Managed(st, e.url) && k !in e.fetched && k !in e.preserve
      && forall u :: u in st.sources && u != e.url ==> k !in st.sources[u].managed && k !in st.sources[u].imported
  {
    var st := Play(bad, events);
    SyncMeans(bad, st.pool, e.fetched, Managed(st, e.url), e.preserve, Others(st.sources, e.url));
    forall u | u in st.sources && u != e.url ensures k !in st.sources[u].managed && k !in st.sources[u].imported {
      assert k in st.sources[u].managed + st.sources[u].imported ==> k in Others(st.sources, e.url);
    }
  }

  /** And such a key does leave: one that the synced source managed, that it neither lists nor preserves, and that no
      other source lists. */
  lemma UnlistedKeysLeave(bad: set<Key>, st: State, e: Event, k: Key)
    requires e.Synchronise? && e.url in st.sources && k in st.sources[e.url].managed && k !in e.fetched
    requires k !in e.preserve && k != ""
    requires forall u :: u in st.sources && u != e.url ==> k !in st.sources[u].managed && k !in st.sources[u].imported
    ensures k !in Next(bad, st, e).pool
  {
    SyncMeans(bad, st.pool, e.fetched, Managed(st, e.url), e.preserve, Others(st.sources, e.url));
  }

  /** Removing a source forgets it and nothing else: its keys stay in the pool, the other sources stay as they are. */
  lemma RemovalForgets(bad: set<Key>, st: State, url: Url)
    ensures var after := Next(bad, st, Remove(url));
      && after.pool == st.pool && url !in after.sources
      && forall u :: u != url ==> (u in after.sources <==> u in st.sources)
                                  && (u in st.sources ==> after.sources[u] == st.sources[u])
  {
  }

  // Any fetched placeholder is taken out and added anew by a repetition.
  lemma PlaceholderReturns(bad: set<Key>, pool: seq<Key>, fetched: seq<Key>, k: Key)
    requires k in fetched && k in bad && k != ""
    ensures var s := Sync(bad, pool, fetched, [], [], {}); Sync(bad, s.pool, fetched, s.managed, [], {}).added != []
  {
    SecondSync(bad, pool, fetched, [], [], {});
  }

  /** Two fetched keys, one of them a placeholder. */
  lemma PlaceholderExample(bad: set<Key>, fetched: seq<Key>)
    requires bad == {"x"} && fetched == ["x", "y"]
    ensures var s := Sync(bad, [], fetched, [], [], {}); Sync(bad, s.pool, fetched, s.managed, [], {}).added != []
  {
    assert fetched[0] == "x" && "x" != "";
    PlaceholderReturns(bad, [], fetched, "x");
  }
}
