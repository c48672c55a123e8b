/**
  The worktree discovery cache: the fields of the resolver and its critical sections.
  What runs between acquiring and releasing a lock is one function here, and the class
  below is proved to compute these functions in place.
*/
module WorktreeCache {
  import opened Options
  import opened SetSizes

  type Key = string

  /** A Git listing; `began` is the moment the listing process was started. */
  datatype Listing = Listing(began: nat, worktrees: seq<string>)

  datatype Entry = Entry(loadedAt: nat, listing: Listing)

  /** The generation pair a refresher observes before it lists. */
  datatype Generation = Generation(global: nat, project: nat)

  function ProjectGeneration(projects: map<Key, nat>, key: Key): nat {
    if key in projects then projects[key] else 0
  }

  function Bump(projects: map<Key, nat>, key: Key): map<Key, nat> {
    projects[key := ProjectGeneration(projects, key) + 1]
  }

  function CurrentGeneration(global: nat, projects: map<Key, nat>, key: Key): Generation {
    Generation(global, ProjectGeneration(projects, key))
  }

  /** `kept` is what may remain when `cache` is trimmed to `maxEntries`: as many entries as fit,
      and none that went was loaded later than one that stayed. */
  ghost predicate Trimmed(cache: map<Key, Entry>, kept: map<Key, Entry>, maxEntries: nat) {
    && kept.Keys <= cache.Keys
    && (forall k | k in kept :: kept[k] == cache[k])
    && |kept| == (if |cache| <= maxEntries then |cache| else maxEntries)
    && (forall gone, stayed | gone in cache && gone !in kept && stayed in kept ::
          cache[gone].loadedAt <= kept[stayed].loadedAt)
  }

  /** A cache that fits is left alone. */
  lemma TrimmedWhenItFits(cache: map<Key, Entry>, kept: map<Key, Entry>, maxEntries: nat)
    requires Trimmed(cache, kept, maxEntries) && |cache| <= maxEntries
    ensures kept == cache
  {
    assert |kept.Keys| == |kept| && |cache.Keys| == |cache|;
    SubsetOfSameSize(kept.Keys, cache.Keys);
  }

  /** An entry no other entry is older than. */
  ghost predicate Oldest(cache: map<Key, Entry>, key: Key) {
    key in cache && forall k | k in cache :: cache[key].loadedAt <= cache[k].loadedAt
  }

  lemma {:induction false} OldestExists(cache: map<Key, Entry>, keys: set<Key>) returns (key: Key)
    requires keys <= cache.Keys && keys != {}
    ensures key in keys && forall k | k in keys :: cache[key].loadedAt <= cache[k].loadedAt
    decreases |keys|
  {
    key :| key in keys;
    if keys != {key} {
      var other := OldestExists(cache, keys - {key});
      if cache[other].loadedAt < cache[key].loadedAt { key := other; }
      assert forall k | k in keys :: k == key || k in keys - {key} || cache[key].loadedAt <= cache[k].loadedAt;
    }
  }

  /** Removing an oldest entry from what is left is one more step of trimming. */
  ghost predicate PartlyTrimmed(cache: map<Key, Entry>, left: map<Key, Entry>) {
    && left.Keys <= cache.Keys
    && (forall k | k in left :: left[k] == cache[k])
    && (forall gone, stayed | gone in cache && gone !in left && stayed in left ::
          cache[gone].loadedAt <= left[stayed].loadedAt)
  }

  lemma DropOldest(cache: map<Key, Entry>, left: map<Key, Entry>, key: Key)
    requires PartlyTrimmed(cache, left) && Oldest(left, key)
    ensures PartlyTrimmed(cache, left - {key}) && |left - {key}| == |left| - 1
  {
    assert (left - {key}).Keys == left.Keys - {key};
    assert |(left - {key}).Keys| == |left - {key}| && |left.Keys| == |left|;
  }

  /** There is always a way to trim. */
  lemma {:induction false} TrimExists(cache: map<Key, Entry>, left: map<Key, Entry>, maxEntries: nat)
    returns (kept: map<Key, Entry>)
    requires PartlyTrimmed(cache, left)
    requires left == cache || |left| >= maxEntries
    ensures Trimmed(cache, kept, maxEntries)
    decreases |left|
  {
    assert |left.Keys| == |left| && |cache.Keys| == |cache|;
    SubsetSize(left.Keys, cache.Keys);
    if |left| <= maxEntries {
      kept := left;
    } else {
      var key := OldestExists(left, left.Keys);
      DropOldest(cache, left, key);
      kept := TrimExists(cache, left - {key}, maxEntries);
    }
  }

  class WorkspaceTargetResolver {
    var cache: map<Key, Entry>
    var generation: nat
    var projectGenerations: map<Key, nat>
    const maxEntries: nat

    constructor (maxEntries: nat)
      ensures cache == map[] && generation == 0 && projectGenerations == map[] && this.maxEntries == maxEntries
    {
      this.maxEntries := maxEntries;
      cache, generation, projectGenerations := map[], 0, map[];
    }

    /** `invalidate` under the write lock on the generations. */
    method BumpProject(key: Key)
      modifies this`projectGenerations
      ensures projectGenerations == Bump(old(projectGenerations), key)
    {
      if key in projectGenerations {
        projectGenerations := projectGenerations[key := projectGenerations[key] + 1];
      } else {
        projectGenerations := projectGenerations[key := 1];
      }
    }

    /** `invalidate` under both write locks. */
    method RemoveEntry(key: Key)
      modifies this`cache
      ensures cache == old(cache) - {key}
    {
      cache := cache - {key};
    }

    /** `invalidate_all` under the write lock on the generations. */
    method BumpAll()
      modifies this`generation, this`projectGenerations
      ensures generation == old(generation) + 1 && projectGenerations == map[]
    {
      generation := generation + 1;
      projectGenerations := map[];
    }

    method ClearEntries()
      modifies this`cache
      ensures cache == map[]
    {
      cache := map[];
    }

    /** `store_if_current` with both locks held: whether the entry was stored. */
    method StoreIfCurrent(key: Key, listing: Listing, observed: Generation, now: nat) returns (stored: bool)
      modifies this`cache
      ensures stored <==> CurrentGeneration(generation, projectGenerations, key) == observed
      ensures if stored then Trimmed(old(cache)[key := Entry(now, listing)], cache, maxEntries) else cache == old(cache)
      ensures stored && |old(cache)[key := Entry(now, listing)]| <= maxEntries ==>
                cache == old(cache)[key := Entry(now, listing)]
    {
      if CurrentGeneration(generation, projectGenerations, key) != observed {
        return false;
      }
      cache := cache[key := Entry(now, listing)];
      ghost var inserted := cache;
      Evict();
      if |inserted| <= maxEntries { TrimmedWhenItFits(inserted, cache, maxEntries); }
      return true;
    }

    /** Removes an oldest entry until the cache fits. */
    method Evict()
      modifies this`cache
      ensures Trimmed(old(cache), cache, maxEntries)
    {
      while |cache| > maxEntries
        invariant PartlyTrimmed(old(cache), cache)
        invariant cache == old(cache) || |cache| >= maxEntries
        decreases |cache|
      {
        var oldest := OldestKey();
        DropOldest(old(cache), cache, oldest);
        cache := cache - {oldest};
      }
      SubsetSize(cache.Keys, old(cache).Keys);
      assert |cache.Keys| == |cache| && |old(cache).Keys| == |old(cache)|;
    }

    /** `min_by_key(loaded_at)` */
    method OldestKey() returns (oldest: Key)
      requires cache != map[]
      ensures Oldest(cache, oldest)
    {
      var rest := cache.Keys;
      assert |rest| == |cache|;
      oldest :| oldest in rest;
      rest := rest - {oldest};
      while rest != {}
        invariant rest <= cache.Keys && oldest in cache
        invariant forall k | k in cache && k !in rest :: cache[oldest].loadedAt <= cache[k].loadedAt
        decreases |rest|
      {
        var key :| key in rest;
        if cache[key].loadedAt < cache[oldest].loadedAt {
          oldest := key;
        }
        rest := rest - {key};
      }
    }
  }
}
