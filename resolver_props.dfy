/** What the folder walk guarantees, for the cache keying the code uses
    (ChildKey) and for the keying its lookup expects (ParentKey). */
module ResolverProps {
  import opened Wrappers
  import opened FolderResolver

  /** The folder reached from `parent` by following `names` through the
      store, if every component exists. */
  ghost function Follow(folders: map<(FolderId, string), FolderId>, parent: FolderId, names: seq<string>): Option<FolderId>
    decreases |names|
  {
    if names == [] then Some(parent)
    else if (parent, names[0]) in folders then Follow(folders, folders[(parent, names[0])], names[1..])
    else None
  }

  /** `map1` is contained in `map2`, entry for entry. */
  ghost predicate Extends<K, V>(map1: map<K, V>, map2: map<K, V>) {
    forall key :: key in map1 ==> key in map2 && map2[key] == map1[key]
  }

  /** The walk's result is the folder resolved for the last component:
      walking one more name is one more step after the walk. */
  lemma {:induction false} WalkSnoc(keying: CacheKeying, d: Drive, cache: Cache, parent: FolderId,
                                    names: seq<string>, name: string)
    ensures var w := Walk(keying, d, cache, parent, names);
            Walk(keying, d, cache, parent, names + [name]) == Step(keying, w.drive, w.cache, w.folder, name)
    decreases |names|
  {
    if names == [] {
      assert ([] + [name])[1..] == [];
    } else {
      var s := Step(keying, d, cache, parent, names[0]);
      assert (names + [name])[1..] == names[1..] + [name];
      WalkSnoc(keying, s.drive, s.cache, s.folder, names[1..], name);
    }
  }

  /** The walk never removes or changes a folder of the store. */
  lemma {:induction false} WalkExtendsStore(keying: CacheKeying, d: Drive, cache: Cache, parent: FolderId, names: seq<string>)
    ensures Extends(d.folders, Walk(keying, d, cache, parent, names).drive.folders)
    decreases |names|
  {
    if names != [] {
      var s := Step(keying, d, cache, parent, names[0]);
      WalkExtendsStore(keying, s.drive, s.cache, s.folder, names[1..]);
    }
  }

  /** The walk keeps the store's numbering and its keying's cache
      invariant, ends on a folder numbered no lower than where it started,
      and never changes a cached entry. Under ChildKey every entry it adds
      is keyed by a folder numbered above the start. */
  lemma {:induction false} WalkKeepsInv(keying: CacheKeying, d: Drive, cache: Cache, parent: FolderId, names: seq<string>)
    requires DriveInv(d) && CacheInv(keying, d, cache) && parent < d.nextId
    ensures var w := Walk(keying, d, cache, parent, names);
      && DriveInv(w.drive) && CacheInv(keying, w.drive, w.cache)
      && parent <= w.folder < w.drive.nextId
      && Extends(cache, w.cache)
      && (keying == ChildKey ==> forall key :: key in w.cache && key !in cache ==> key.0 > parent)
    decreases |names|
  {
    if names != [] {
      var s := Step(keying, d, cache, parent, names[0]);
      StepKeepsInv(keying, d, cache, parent, names[0]);
      WalkKeepsInv(keying, s.drive, s.cache, s.folder, names[1..]);
    }
  }

  /** One step keeps the store's numbering and its keying's cache
      invariant, and never changes a cached entry. */
  lemma StepKeepsInv(keying: CacheKeying, d: Drive, cache: Cache, parent: FolderId, name: string)
    requires DriveInv(d) && CacheInv(keying, d, cache) && parent < d.nextId
    ensures var s := Step(keying, d, cache, parent, name);
      && DriveInv(s.drive) && CacheInv(keying, s.drive, s.cache)
      && parent <= s.folder < s.drive.nextId
      && Extends(cache, s.cache)
      && (keying == ChildKey ==> forall key :: key in s.cache && key !in cache ==> key.0 > parent)
  {
    var s := Step(keying, d, cache, parent, name);
    if (parent, name) !in cache {
      StepMissKeepsDrive(keying, d, cache, parent, name);
      assert s.cache == cache[KeyFor(keying, parent, s.folder, name) := s.folder];
      if keying == ChildKey {
        assert CacheInv(ChildKey, s.drive, s.cache);
      } else {
        assert CacheInv(ParentKey, s.drive, s.cache);
      }
    }
  }

  /** On a miss the store keeps its numbering and its folders, and the
      resolved folder is numbered above its parent. */
  lemma StepMissKeepsDrive(keying: CacheKeying, d: Drive, cache: Cache, parent: FolderId, name: string)
    requires DriveInv(d) && parent < d.nextId && (parent, name) !in cache
    ensures var s := Step(keying, d, cache, parent, name);
      && DriveInv(s.drive) && parent < s.folder < s.drive.nextId
      && d.nextId <= s.drive.nextId && Extends(d.folders, s.drive.folders)
  {
  }

  /** As written, walking the same path a second time creates no folder:
      every folder the first walk needed is now in the store, and the
      second walk ends on the same folder without touching store or
      cache (its list calls aside). */
  lemma {:induction false} RewalkCreatesNothing(d: Drive, cache: Cache, parent: FolderId, names: seq<string>,
                                                d2: Drive, cache2: Cache)
    requires DriveInv(d) && CacheInv(ChildKey, d, cache) && parent < d.nextId
    requires var w := Walk(ChildKey, d, cache, parent, names);
      d2.folders == w.drive.folders && d2.nextId == w.drive.nextId && cache2 == w.cache
    ensures var w2 := Walk(ChildKey, d2, cache2, parent, names);
      && w2.drive.creates == d2.creates
      && w2.drive.folders == d2.folders && w2.drive.nextId == d2.nextId
      && w2.cache == cache2
      && w2.folder == Walk(ChildKey, d, cache, parent, names).folder
    decreases |names|
  {
    if names != [] {
      var s := Step(ChildKey, d, cache, parent, names[0]);
      RewalkFirstStep(d, cache, parent, names[0], names[1..], d2, cache2);
      StepKeepsInv(ChildKey, d, cache, parent, names[0]);
      var s2 := Step(ChildKey, d2, cache2, parent, names[0]);
      RewalkCreatesNothing(s.drive, s.cache, s.folder, names[1..], s2.drive, s2.cache);
    }
  }

  /** The first step of the second walk: it ends where the first walk's
      first step ended, and leaves store and cache as they are. */
  lemma RewalkFirstStep(d: Drive, cache: Cache, parent: FolderId, name: string, rest: seq<string>,
                        d2: Drive, cache2: Cache)
    requires DriveInv(d) && CacheInv(ChildKey, d, cache) && parent < d.nextId
    requires var s := Step(ChildKey, d, cache, parent, name);
      var w := Walk(ChildKey, s.drive, s.cache, s.folder, rest);
      d2.folders == w.drive.folders && d2.nextId == w.drive.nextId && cache2 == w.cache
    ensures var s := Step(ChildKey, d, cache, parent, name);
      var s2 := Step(ChildKey, d2, cache2, parent, name);
      && s2.folder == s.folder && s2.cache == cache2
      && s2.drive.folders == d2.folders && s2.drive.nextId == d2.nextId && s2.drive.creates == d2.creates
  {
    var s := Step(ChildKey, d, cache, parent, name);
    StepKeepsInv(ChildKey, d, cache, parent, name);
    WalkKeepsInv(ChildKey, s.drive, s.cache, s.folder, rest);
    WalkExtendsStore(ChildKey, s.drive, s.cache, s.folder, rest);
    if (parent, name) !in cache {
      assert (parent, name) !in cache2;
      assert (s.folder, name) in cache2 && cache2[(s.folder, name)] == s.folder;
    }
  }

  /** Every folder of the store sits under a single (parent, name) key, as
      a Drive folder has one parent and one name. */
  ghost predicate OneKeyEach(folders: map<(FolderId, string), FolderId>) {
    forall k1, k2 :: k1 in folders && k2 in folders && folders[k1] == folders[k2] ==> k1 == k2
  }

  /** Under ChildKey, every cached (folder, name) is a folder the store
      holds under that name. */
  ghost predicate CacheNamed(folders: map<(FolderId, string), FolderId>, cache: Cache) {
    forall key :: key in cache ==> exists x: FolderId :: (x, key.1) in folders && folders[(x, key.1)] == key.0
  }

  /** No folder of the store is `root`'s child: `root` is the top of the
      uploads, not a folder the walk can reach by name. */
  ghost predicate RootFree(folders: map<(FolderId, string), FolderId>, root: FolderId) {
    forall key :: key in folders ==> folders[key] != root
  }

  /** A folder cached under two names has, in such a store, one name. */
  lemma NamesAgree(folders: map<(FolderId, string), FolderId>, cache: Cache, c: FolderId, n: string, m: string)
    requires OneKeyEach(folders) && CacheNamed(folders, cache)
    requires (c, n) in cache && (c, m) in cache && cache[(c, n)] == c && cache[(c, m)] == c
    ensures n == m
  {
    var x :| (x, n) in folders && folders[(x, n)] == c;
    var y :| (y, m) in folders && folders[(y, m)] == c;
  }

  /** Under ChildKey, one step keeps one key per folder, the cache naming
      stored folders, and the root out of the store. */
  lemma StepKeepsNamed(d: Drive, cache: Cache, parent: FolderId, name: string, root: FolderId)
    requires DriveInv(d) && parent < d.nextId && root < d.nextId
    requires OneKeyEach(d.folders) && CacheNamed(d.folders, cache) && RootFree(d.folders, root)
    ensures var s := Step(ChildKey, d, cache, parent, name);
      OneKeyEach(s.drive.folders) && CacheNamed(s.drive.folders, s.cache) && RootFree(s.drive.folders, root)
  {
    var s := Step(ChildKey, d, cache, parent, name);
    if (parent, name) !in cache {
      if (parent, name) !in d.folders {
        FreshKeepsOneKey(d.folders, (parent, name), d.nextId, root);
      }
      CacheNamedGrows(d.folders, cache, s.drive.folders, parent, name, s.folder);
    }
  }

  /** Adding a folder under a fresh number keeps one key per folder and
      the root out of the store. */
  lemma FreshKeepsOneKey(folders: map<(FolderId, string), FolderId>, key: (FolderId, string), next: FolderId, root: FolderId)
    requires OneKeyEach(folders) && RootFree(folders, root) && root < next
    requires forall k :: k in folders ==> folders[k] < next
    ensures OneKeyEach(folders[key := next]) && RootFree(folders[key := next], root)
  {
  }

  /** Caching a folder under the name the store holds it by keeps the cache
      naming stored folders, in any larger store. */
  lemma CacheNamedGrows(folders: map<(FolderId, string), FolderId>, cache: Cache,
                        folders2: map<(FolderId, string), FolderId>, parent: FolderId, name: string, child: FolderId)
    requires CacheNamed(folders, cache) && Extends(folders, folders2)
    requires (parent, name) in folders2 && folders2[(parent, name)] == child
    ensures CacheNamed(folders2, cache[(child, name) := child])
  {
    forall key | key in cache[(child, name) := child]
      ensures exists x: FolderId :: (x, key.1) in folders2 && folders2[(x, key.1)] == key.0
    {
      if key == (child, name) {
        assert (parent, key.1) in folders2;
      } else {
        var x :| (x, key.1) in folders && folders[(x, key.1)] == key.0;
        assert (x, key.1) in folders2;
      }
    }
  }

  /** No name is cached for the root: it is no stored folder. */
  lemma RootNotCached(folders: map<(FolderId, string), FolderId>, cache: Cache, root: FolderId)
    requires CacheNamed(folders, cache) && RootFree(folders, root)
    ensures forall n :: (root, n) !in cache
  {
  }

  /** Under ChildKey, a walk keeps the facts `StepKeepsNamed` keeps. */
  lemma {:induction false} WalkKeepsNamed(d: Drive, cache: Cache, parent: FolderId, names: seq<string>, root: FolderId)
    requires DriveInv(d) && CacheInv(ChildKey, d, cache) && parent < d.nextId && root < d.nextId
    requires OneKeyEach(d.folders) && CacheNamed(d.folders, cache) && RootFree(d.folders, root)
    ensures var w := Walk(ChildKey, d, cache, parent, names);
      OneKeyEach(w.drive.folders) && CacheNamed(w.drive.folders, w.cache) && RootFree(w.drive.folders, root)
    decreases |names|
  {
    if names != [] {
      var s := Step(ChildKey, d, cache, parent, names[0]);
      StepKeepsInv(ChildKey, d, cache, parent, names[0]);
      StepKeepsNamed(d, cache, parent, names[0], root);
      WalkKeepsNamed(s.drive, s.cache, s.folder, names[1..], root);
    }
  }

  /** As written, in a store with one key per folder, walking a path again
      after any number of other walks creates nothing and ends on the
      folder the first walk ended on, as long as the walk starts below the
      root. The store and cache the other walks left only have to extend
      those of the first walk. */
  lemma RewalkAfterOtherWalks(d: Drive, cache: Cache, root: FolderId, names: seq<string>, d2: Drive, cache2: Cache)
    requires DriveInv(d) && CacheInv(ChildKey, d, cache) && root < d.nextId
    requires OneKeyEach(d2.folders) && CacheNamed(d2.folders, cache2) && RootFree(d2.folders, root)
    requires var w := Walk(ChildKey, d, cache, root, names);
      Extends(w.drive.folders, d2.folders) && Extends(w.cache, cache2)
    ensures var w2 := Walk(ChildKey, d2, cache2, root, names);
      && w2.folder == Walk(ChildKey, d, cache, root, names).folder
      && w2.drive.folders == d2.folders && w2.drive.nextId == d2.nextId && w2.drive.creates == d2.creates
      && w2.cache == cache2
  {
    RootNotCached(d2.folders, cache2, root);
    RewalkFrom(d, cache, root, names, d2, cache2);
  }

  /** The induction behind `RewalkAfterOtherWalks`: every name the second
      walk finds cached at its current folder, the first walk had cached
      there too. */
  lemma {:induction false} RewalkFrom(d: Drive, cache: Cache, parent: FolderId, names: seq<string>, d2: Drive, cache2: Cache)
    requires DriveInv(d) && CacheInv(ChildKey, d, cache) && parent < d.nextId
    requires OneKeyEach(d2.folders) && CacheNamed(d2.folders, cache2)
    requires var w := Walk(ChildKey, d, cache, parent, names);
      Extends(w.drive.folders, d2.folders) && Extends(w.cache, cache2)
    requires forall n :: (parent, n) in cache2 ==> (parent, n) in cache
    ensures var w2 := Walk(ChildKey, d2, cache2, parent, names);
      && w2.folder == Walk(ChildKey, d, cache, parent, names).folder
      && w2.drive.folders == d2.folders && w2.drive.nextId == d2.nextId && w2.drive.creates == d2.creates
      && w2.cache == cache2
    decreases |names|
  {
    if names != [] {
      var s := Step(ChildKey, d, cache, parent, names[0]);
      var s2 := Step(ChildKey, d2, cache2, parent, names[0]);
      RewalkStep(d, cache, parent, names[0], names[1..], d2, cache2);
      StepKeepsInv(ChildKey, d, cache, parent, names[0]);
      forall n | (s.folder, n) in cache2
        ensures (s.folder, n) in s.cache
      {
        NamesAgree(d2.folders, cache2, s.folder, n, names[0]);
      }
      RewalkFrom(s.drive, s.cache, s.folder, names[1..], s2.drive, s2.cache);
    }
  }

  /** One step of `RewalkFrom`: the second walk's step ends where the first
      walk's did, leaves store and cache as they are, and the first walk
      cached the name it arrived by. */
  lemma RewalkStep(d: Drive, cache: Cache, parent: FolderId, name: string, rest: seq<string>, d2: Drive, cache2: Cache)
    requires DriveInv(d) && CacheInv(ChildKey, d, cache) && parent < d.nextId
    requires var s := Step(ChildKey, d, cache, parent, name);
      var w := Walk(ChildKey, s.drive, s.cache, s.folder, rest);
      Extends(w.drive.folders, d2.folders) && Extends(w.cache, cache2)
    requires forall n :: (parent, n) in cache2 ==> (parent, n) in cache
    ensures var s := Step(ChildKey, d, cache, parent, name);
      var s2 := Step(ChildKey, d2, cache2, parent, name);
      && s2.folder == s.folder && s2.cache == cache2
      && s2.drive.folders == d2.folders && s2.drive.nextId == d2.nextId && s2.drive.creates == d2.creates
      && (s.folder, name) in s.cache && s.cache[(s.folder, name)] == s.folder
      && (s.folder, name) in cache2 && cache2[(s.folder, name)] == s.folder
  {
    var s := Step(ChildKey, d, cache, parent, name);
    var w := Walk(ChildKey, s.drive, s.cache, s.folder, rest);
    StepKeepsInv(ChildKey, d, cache, parent, name);
    WalkKeepsInv(ChildKey, s.drive, s.cache, s.folder, rest);
    WalkExtendsStore(ChildKey, s.drive, s.cache, s.folder, rest);
    ExtendsTrans(s.cache, w.cache, cache2);
    ExtendsTrans(s.drive.folders, w.drive.folders, d2.folders);
    SecondStep(d2, cache2, parent, name, s.folder);
  }

  /** `Extends` is transitive. */
  lemma ExtendsTrans<K, V>(m1: map<K, V>, m2: map<K, V>, m3: map<K, V>)
    requires Extends(m1, m2) && Extends(m2, m3)
    ensures Extends(m1, m3)
  {
  }

  /** A ChildKey step that finds `c` cached for the lookup, or misses and
      lists `c` from the store with `c` already cached under its name,
      ends on `c` and changes neither store nor cache. */
  lemma SecondStep(d2: Drive, cache2: Cache, parent: FolderId, name: string, c: FolderId)
    requires (parent, name) in cache2 ==> cache2[(parent, name)] == c
    requires (parent, name) !in cache2 ==>
      && (parent, name) in d2.folders && d2.folders[(parent, name)] == c
      && (c, name) in cache2 && cache2[(c, name)] == c
    ensures var s2 := Step(ChildKey, d2, cache2, parent, name);
      && s2.folder == c && s2.cache == cache2
      && s2.drive.folders == d2.folders && s2.drive.nextId == d2.nextId && s2.drive.creates == d2.creates
  {
  }

  /** Keyed by parent, a walk repeated after any number of other walks is
      answered entirely from the cache: the cache only grows, so every
      component the first walk resolved is still there. */
  lemma {:induction false} KeyedRewalkAfterMore(d: Drive, cache: Cache, parent: FolderId, names: seq<string>, d2: Drive, cache2: Cache)
    requires Extends(Walk(ParentKey, d, cache, parent, names).cache, cache2)
    ensures Walk(ParentKey, d2, cache2, parent, names) == WalkState(d2, cache2, Walk(ParentKey, d, cache, parent, names).folder)
    decreases |names|
  {
    if names != [] {
      var s := Step(ParentKey, d, cache, parent, names[0]);
      KeyedWalkExtendsCache(s.drive, s.cache, s.folder, names[1..]);
      KeyedRewalkAfterMore(s.drive, s.cache, s.folder, names[1..], d2, cache2);
    }
  }

  /** Keyed by parent, a repeated walk is answered entirely from the cache:
      no list call, no create call, the same folder, whatever the store. */
  lemma {:induction false} KeyedRewalkIsFree(d: Drive, cache: Cache, parent: FolderId, names: seq<string>, d2: Drive)
    ensures var w := Walk(ParentKey, d, cache, parent, names);
      Walk(ParentKey, d2, w.cache, parent, names) == WalkState(d2, w.cache, w.folder)
    decreases |names|
  {
    if names != [] {
      var name := names[0];
      var s := Step(ParentKey, d, cache, parent, name);
      KeyedWalkExtendsCache(s.drive, s.cache, s.folder, names[1..]);
      KeyedRewalkIsFree(s.drive, s.cache, s.folder, names[1..], d2);
    }
  }

  lemma {:induction false} KeyedWalkExtendsCache(d: Drive, cache: Cache, parent: FolderId, names: seq<string>)
    ensures Extends(cache, Walk(ParentKey, d, cache, parent, names).cache)
    decreases |names|
  {
    if names != [] {
      var s := Step(ParentKey, d, cache, parent, names[0]);
      KeyedWalkExtendsCache(s.drive, s.cache, s.folder, names[1..]);
    }
  }

  /** Keyed by parent, with a cache that agrees with the store, the folder
      the walk returns is the one the store holds at that path. */
  lemma {:induction false} KeyedWalkFollowsStore(d: Drive, cache: Cache, parent: FolderId, names: seq<string>)
    requires CacheInv(ParentKey, d, cache)
    ensures var w := Walk(ParentKey, d, cache, parent, names);
      Follow(w.drive.folders, parent, names) == Some(w.folder)
    decreases |names|
  {
    if names != [] {
      var s := Step(ParentKey, d, cache, parent, names[0]);
      assert CacheInv(ParentKey, s.drive, s.cache);
      KeyedWalkFollowsStore(s.drive, s.cache, s.folder, names[1..]);
      WalkExtendsStore(ParentKey, s.drive, s.cache, s.folder, names[1..]);
    }
  }

  /** As written, a path with a folder named like its parent, "a/a",
      stops at "a": the entry cached for "a" is keyed ("a"'s id, "a"),
      which is exactly the lookup for the second component. The folder
      "a/a" is never created and the file lands one level too high. */
  lemma RepeatedNameResolvesToParent()
    ensures var w := Walk(ChildKey, Drive(map[], 1, 0, 0), map[], 0, ["a", "a"]);
      && w.folder == 1
      && Follow(w.drive.folders, 0, ["a"]) == Some(1)
      && Follow(w.drive.folders, 0, ["a", "a"]) == None
      && w.drive.lists == 1
  {
    var d := Drive(map[], 1, 0, 0);
    var s := Step(ChildKey, d, map[], 0, "a");
    assert s.folder == 1 && s.cache == map[(1, "a") := 1];
    assert ["a", "a"][1..] == ["a"];
    var w := Walk(ChildKey, d, map[], 0, ["a", "a"]);
    assert w == Step(ChildKey, s.drive, s.cache, 1, "a");
    assert w.drive.folders == map[(0, "a") := 1];
  }

  /** Keyed by parent, the same path resolves to a new folder "a/a". */
  lemma KeyedRepeatedNameCreatesChild()
    ensures var w := Walk(ParentKey, Drive(map[], 1, 0, 0), map[], 0, ["a", "a"]);
      && w.folder == 2
      && Follow(w.drive.folders, 0, ["a", "a"]) == Some(2)
  {
    KeyedWalkFollowsStore(Drive(map[], 1, 0, 0), map[], 0, ["a", "a"]);
    var d := Drive(map[], 1, 0, 0);
    var s := Step(ParentKey, d, map[], 0, "a");
    assert s.folder == 1;
    assert ["a", "a"][1..] == ["a"];
  }

  /** As written, the cache does not spare the second walk of "a/b" a
      single list call: both lookups miss again. */
  lemma RewalkRepeatsLookups()
    ensures var w := Walk(ChildKey, Drive(map[], 1, 0, 0), map[], 0, ["a", "b"]);
      var w2 := Walk(ChildKey, w.drive, w.cache, 0, ["a", "b"]);
      w2.drive.lists == w.drive.lists + 2 && w2.drive.creates == w.drive.creates
  {
    var d := Drive(map[], 1, 0, 0);
    assert ["a", "b"][1..] == ["b"];
    var s := Step(ChildKey, d, map[], 0, "a");
    var w := Walk(ChildKey, d, map[], 0, ["a", "b"]);
    assert w == Step(ChildKey, s.drive, s.cache, 1, "b");
    assert w.cache == map[(1, "a") := 1, (2, "b") := 2];
    assert w.drive.folders == map[(0, "a") := 1, (1, "b") := 2];
    var t := Step(ChildKey, w.drive, w.cache, 0, "a");
    assert t.folder == 1;
    assert Walk(ChildKey, w.drive, w.cache, 0, ["a", "b"]) == Step(ChildKey, t.drive, t.cache, 1, "b");
  }
}
