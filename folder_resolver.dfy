/** The remote-folder walk of `upload_file_to_drive`: the directory
    components of a file's path are resolved one at a time, starting from
    the configured root folder, through a process-wide cache, a "list
    folders by name and parent" query and a "create folder" call. */
module FolderResolver {
  import opened Wrappers

  /** Remote folder ids. The store's ids are opaque strings; the model
      numbers folders so that every folder comes after its parent (any
      acyclic folder tree can be numbered so) and hands out fresh numbers
      from a counter. */
  type FolderId = nat

  /** The cache: (parent id, folder name) to folder id, as a map. */
  type Cache = map<(FolderId, string), FolderId>

  /** What the walk can observe of the remote store: the folder with a given
      name under a given parent, the next fresh id, and how many list and
      create calls have been issued. */
  datatype Drive = Drive(folders: map<(FolderId, string), FolderId>, nextId: FolderId, lists: nat, creates: nat)

  /** Every folder is numbered after its parent and below the counter. */
  ghost predicate DriveInv(d: Drive) {
    forall key :: key in d.folders ==> key.0 < d.folders[key] < d.nextId
  }

  /** Which key a miss is cached under. The code stores the entry after
      `parent_id` has already become the child's id, so the key is
      (child, name); keying by (parent, name) is what the lookup reads. */
  datatype CacheKeying = ChildKey | ParentKey

  function KeyFor(keying: CacheKeying, parent: FolderId, child: FolderId, name: string): (FolderId, string) {
    match keying
    case ChildKey => (child, name)
    case ParentKey => (parent, name)
  }

  /** What each keying keeps true of the cache: under ChildKey every entry
      maps a folder to itself; under ParentKey every entry agrees with the
      store. */
  ghost predicate CacheInv(keying: CacheKeying, d: Drive, cache: Cache) {
    match keying
    case ChildKey => forall key :: key in cache ==> cache[key] == key.0 && key.0 < d.nextId
    case ParentKey => forall key :: key in cache ==> key in d.folders && d.folders[key] == cache[key]
  }

  datatype WalkState = WalkState(drive: Drive, cache: Cache, folder: FolderId)

  /** Resolving one component `name` below `parent`. */
  function Step(keying: CacheKeying, d: Drive, cache: Cache, parent: FolderId, name: string): (r: WalkState)
    // a cache hit moves to the cached id and calls nothing
    ensures (parent, name) in cache ==> r == WalkState(d, cache, cache[(parent, name)])
    // a miss lists once, creates only when the listing is empty, and
    // caches exactly one entry for the folder it resolved
    ensures (parent, name) !in cache ==>
      && r.drive.lists == d.lists + 1
      && r.drive.creates == d.creates + (if (parent, name) in d.folders then 0 else 1)
      && (parent, name) in r.drive.folders && r.drive.folders[(parent, name)] == r.folder
      && r.cache == cache[KeyFor(keying, parent, r.folder, name) := r.folder]
    ensures (parent, name) !in cache && (parent, name) in d.folders ==>
      r.drive.folders == d.folders && r.drive.nextId == d.nextId
    ensures (parent, name) !in cache && (parent, name) !in d.folders ==>
      r.folder == d.nextId && r.drive.nextId == d.nextId + 1
      && r.drive.folders == d.folders[(parent, name) := d.nextId]
  {
    if (parent, name) in cache then
      WalkState(d, cache, cache[(parent, name)])
    else
      var listed := d.(lists := d.lists + 1);
      if (parent, name) in d.folders then
        var child := d.folders[(parent, name)];
        WalkState(listed, cache[KeyFor(keying, parent, child, name) := child], child)
      else
        var child := d.nextId;
        var created := listed.(folders := d.folders[(parent, name) := child], nextId := child + 1, creates := d.creates + 1);
        WalkState(created, cache[KeyFor(keying, parent, child, name) := child], child)
  }

  /** Resolving every component in turn, starting from `parent`. */
  function Walk(keying: CacheKeying, d: Drive, cache: Cache, parent: FolderId, names: seq<string>): (r: WalkState)
    decreases |names|
    ensures names == [] ==> r == WalkState(d, cache, parent)
    ensures d.lists <= r.drive.lists <= d.lists + |names|
    ensures d.creates <= r.drive.creates <= d.creates + (r.drive.lists - d.lists)
    ensures r.drive.nextId - d.nextId == r.drive.creates - d.creates
  {
    if names == [] then WalkState(d, cache, parent)
    else
      var s := Step(keying, d, cache, parent, names[0]);
      Walk(keying, s.drive, s.cache, s.folder, names[1..])
  }

  /** The remote store, reduced to the two folder calls the walk makes. */
  class RemoteStore {
    var folders: map<(FolderId, string), FolderId>
    var nextId: FolderId
    var listCalls: nat
    var createCalls: nat

    function State(): Drive
      reads this
    {
      Drive(folders, nextId, listCalls, createCalls)
    }

    constructor (existing: map<(FolderId, string), FolderId>, firstFreeId: FolderId)
      ensures State() == Drive(existing, firstFreeId, 0, 0)
    {
      folders, nextId := existing, firstFreeId;
      listCalls, createCalls := 0, 0;
    }

    /** `files().list` for a folder called `name` in `parent`, one result
        per page. */
    method FindFolder(parent: FolderId, name: string) returns (found: Option<FolderId>)
      modifies this
      ensures State() == old(State()).(lists := old(listCalls) + 1)
      ensures found == if (parent, name) in folders then Some(folders[(parent, name)]) else None
    {
      listCalls := listCalls + 1;
      found := if (parent, name) in folders then Some(folders[(parent, name)]) else None;
    }

    /** `files().create` of a folder called `name` in `parent`. */
    method CreateFolder(parent: FolderId, name: string) returns (id: FolderId)
      modifies this
      ensures id == old(nextId)
      ensures State() == old(State()).(folders := old(folders)[(parent, name) := id],
                                       nextId := id + 1, creates := old(createCalls) + 1)
    {
      id := nextId;
      folders := folders[(parent, name) := id];
      nextId := nextId + 1;
      createCalls := createCalls + 1;
    }
  }

  /** The owner of the process-wide `folder_cache`, with the keying its
      misses are cached under: ChildKey is the code as written, ParentKey
      the keying its lookup expects. */
  class FolderResolver {
    const keying: CacheKeying
    var cache: Cache

    constructor (keying: CacheKeying)
      ensures this.keying == keying && cache == map[]
    {
      this.keying := keying;
      cache := map[];
    }

    /** The loop of `upload_file_to_drive` over the directory components:
        the new store state, cache and resulting folder are those of the
        walk under the resolver's keying. */
    method Resolve(store: RemoteStore, names: seq<string>, folderId: FolderId) returns (parentId: FolderId)
      modifies this, store
      ensures WalkState(store.State(), cache, parentId)
           == Walk(keying, old(store.State()), old(cache), folderId, names)
    {
      parentId := folderId;
      for i := 0 to |names|
        invariant Walk(keying, store.State(), cache, parentId, names[i..])
               == Walk(keying, old(store.State()), old(cache), folderId, names)
      {
        var name := names[i];
        ghost var s := Step(keying, store.State(), cache, parentId, name);
        assert names[i..][1..] == names[i + 1..];
        assert Walk(keying, store.State(), cache, parentId, names[i..])
            == Walk(keying, s.drive, s.cache, s.folder, names[i + 1..]);
        if (parentId, name) in cache {
          parentId := cache[(parentId, name)];
        } else {
          var items := store.FindFolder(parentId, name);
          var child: FolderId;
          if items.None? {
            child := store.CreateFolder(parentId, name);
          } else {
            child := items.value;
          }
          // as written, the entry is stored after `parent_id` has become
          // the child's id; KeyFor(ChildKey, ...) is that key
          cache := cache[KeyFor(keying, parentId, child, name) := child];
          parentId := child;
        }
        assert WalkState(store.State(), cache, parentId) == s;
      }
      assert names[|names|..] == [];
    }
  }
}
