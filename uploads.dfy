/** What a run of `process_data` does to the remote side: the folder walks
    of the overlay uploads, record after record in traversal order, until a
    record ends the run. */
module Uploads {
  import opened Wrappers
  import opened Filters
  import opened Records
  import opened FolderResolver
  import opened ResolverProps

  /** The fixed parts of a run: how the cache is keyed, the Drive folder
      uploads go below, the segments of the local root, and where the
      upload link is checked. */
  datatype RunConfig = RunConfig(keying: CacheKeying, rootId: FolderId, root: seq<string>, check: LinkCheck)

  /** The remote side so far: the store, the folder cache, and whether a
      record has ended the run. */
  datatype Progress = Progress(drive: Drive, cache: Cache, stopped: bool)

  /** One record: unless the run has ended, its overlay folders are walked
      when it gets as far as the upload, and the run ends when its row
      cannot be built. */
  ghost function UploadStep(cfg: RunConfig, entryName: string, p: Progress, a: AnnotationFolder): Progress {
    if p.stopped then p
    else if ReachesUpload(a) then
      var w := Walk(cfg.keying, p.drive, p.cache, cfg.rootId, OverlayFolders(cfg.root, entryName, a.name));
      Progress(w.drive, w.cache, !Buildable(a, cfg.check))
    else
      Progress(p.drive, p.cache, !Buildable(a, cfg.check))
  }

  /** The records of one entry, in order. */
  ghost function EntryUploads(cfg: RunConfig, entryName: string, p: Progress, anns: seq<AnnotationFolder>): Progress
    decreases |anns|
  {
    if anns == [] then p
    else UploadStep(cfg, entryName, EntryUploads(cfg, entryName, p, anns[..|anns| - 1]), anns[|anns| - 1])
  }

  /** The records of every entry that passes the name filter, in order. */
  ghost function RunUploads(cfg: RunConfig, p: Progress, listing: seq<TopEntry>): Progress
    decreases |listing|
  {
    if listing == [] then p
    else
      var prev := RunUploads(cfg, p, listing[..|listing| - 1]);
      var e := listing[|listing| - 1];
      if NameCheck(e.name, false) then EntryUploads(cfg, e.name, prev, e.annotations) else prev
  }

  /** The remote side after one more record of an entry. */
  lemma EntryUploadsStep(cfg: RunConfig, entryName: string, p: Progress, anns: seq<AnnotationFolder>, j: nat)
    requires j < |anns|
    ensures EntryUploads(cfg, entryName, p, anns[..j + 1]) == UploadStep(cfg, entryName, EntryUploads(cfg, entryName, p, anns[..j]), anns[j])
  {
    assert anns[..j + 1][..j] == anns[..j];
  }

  /** The remote side after one more top-level entry. */
  lemma RunUploadsStep(cfg: RunConfig, p: Progress, listing: seq<TopEntry>, i: nat)
    requires i < |listing|
    ensures RunUploads(cfg, p, listing[..i + 1]) ==
      if NameCheck(listing[i].name, false)
      then EntryUploads(cfg, listing[i].name, RunUploads(cfg, p, listing[..i]), listing[i].annotations)
      else RunUploads(cfg, p, listing[..i])
  {
    assert listing[..i + 1][..i] == listing[..i];
  }

  /** Once the run has ended, later records call nothing. */
  lemma {:induction false} EntryUploadsWhenStopped(cfg: RunConfig, entryName: string, p: Progress, anns: seq<AnnotationFolder>)
    requires p.stopped
    ensures EntryUploads(cfg, entryName, p, anns) == p
    decreases |anns|
  {
    if anns != [] {
      EntryUploadsWhenStopped(cfg, entryName, p, anns[..|anns| - 1]);
    }
  }

  /** A record that ends the run fixes the remote side of its whole entry. */
  lemma {:induction false} EntryUploadsAfterStop(cfg: RunConfig, entryName: string, p: Progress, anns: seq<AnnotationFolder>, j: nat)
    requires j <= |anns| && EntryUploads(cfg, entryName, p, anns[..j]).stopped
    ensures EntryUploads(cfg, entryName, p, anns) == EntryUploads(cfg, entryName, p, anns[..j])
    decreases |anns|
  {
    if j < |anns| {
      var init := anns[..|anns| - 1];
      assert init[..j] == anns[..j];
      EntryUploadsAfterStop(cfg, entryName, p, init, j);
    } else {
      assert anns[..j] == anns;
    }
  }

  /** A record that ends the run fixes the remote side of the whole run. */
  lemma {:induction false} RunUploadsAfterStop(cfg: RunConfig, p: Progress, listing: seq<TopEntry>, i: nat)
    requires i <= |listing| && RunUploads(cfg, p, listing[..i]).stopped
    ensures RunUploads(cfg, p, listing) == RunUploads(cfg, p, listing[..i])
    decreases |listing|
  {
    if i < |listing| {
      var init := listing[..|listing| - 1];
      assert init[..i] == listing[..i];
      RunUploadsAfterStop(cfg, p, init, i);
      var e := listing[|listing| - 1];
      EntryUploadsWhenStopped(cfg, e.name, RunUploads(cfg, p, init), e.annotations);
    } else {
      assert listing[..i] == listing;
    }
  }

  /** One record ends the run exactly when the run had ended or its row
      cannot be built. */
  lemma UploadStepStops(cfg: RunConfig, entryName: string, p: Progress, a: AnnotationFolder)
    ensures UploadStep(cfg, entryName, p, a).stopped <==> p.stopped || !Buildable(a, cfg.check)
  {
  }

  /** Building the rows of one more record fails exactly when building
      the earlier ones failed or that record cannot be built. */
  lemma RowsFailSnoc(prefix: seq<AnnotationFolder>, a: AnnotationFolder, check: LinkCheck)
    ensures BuildRows(prefix + [a], check).Err? <==> BuildRows(prefix, check).Err? || !Buildable(a, check)
  {
    if BuildRows(prefix, check).Err? {
      BuildRowsErrExtends(prefix, [a], check);
    } else {
      BuildRowsSnoc(prefix, a, check);
      BuildRowOkIff(|prefix|, a, check);
    }
  }

  /** Appending a non-empty sequence is appending its front, then its last
      element. */
  lemma AppendLast<T>(done: seq<T>, xs: seq<T>)
    requires xs != []
    ensures done + xs == (done + xs[..|xs| - 1]) + [xs[|xs| - 1]]
  {
    assert xs == xs[..|xs| - 1] + [xs[|xs| - 1]];
  }

  /** Within an entry, the walks end the run exactly when building the rows
      fails, given that this held for the records before it. */
  lemma {:induction false} EntryStopsIffError(cfg: RunConfig, entryName: string, p: Progress,
                                              done: seq<AnnotationFolder>, anns: seq<AnnotationFolder>)
    requires p.stopped <==> BuildRows(done, cfg.check).Err?
    ensures EntryUploads(cfg, entryName, p, anns).stopped <==> BuildRows(done + anns, cfg.check).Err?
    decreases |anns|
  {
    if anns == [] {
      assert done + anns == done;
    } else {
      var init := anns[..|anns| - 1];
      var last := anns[|anns| - 1];
      EntryStopsIffError(cfg, entryName, p, done, init);
      AppendLast(done, anns);
      var q := EntryUploads(cfg, entryName, p, init);
      UploadStepStops(cfg, entryName, q, last);
      RowsFailSnoc(done + init, last, cfg.check);
    }
  }

  /** Over the whole run, the walks end the run exactly when building the
      rows of the visited records fails. */
  lemma {:induction false} RunStopsIffError(cfg: RunConfig, p: Progress, listing: seq<TopEntry>)
    requires !p.stopped
    ensures RunUploads(cfg, p, listing).stopped <==> BuildRows(Accepted(listing), cfg.check).Err?
    decreases |listing|
  {
    if listing != [] {
      var init := listing[..|listing| - 1];
      var e := listing[|listing| - 1];
      RunStopsIffError(cfg, p, init);
      var prev := RunUploads(cfg, p, init);
      assert Accepted(listing) == Accepted(init) + Visited(e);
      if NameCheck(e.name, false) {
        assert RunUploads(cfg, p, listing) == EntryUploads(cfg, e.name, prev, e.annotations);
        EntryStopsIffError(cfg, e.name, prev, Accepted(init), e.annotations);
      } else {
        assert Accepted(listing) == Accepted(init);
        assert RunUploads(cfg, p, listing) == prev;
      }
    }
  }

  /** An entry none of whose records gets as far as an upload leaves the
      store and the cache as they were. */
  lemma {:induction false} EntryWithoutUploads(cfg: RunConfig, entryName: string, p: Progress, anns: seq<AnnotationFolder>)
    requires forall a :: a in anns ==> !ReachesUpload(a)
    ensures EntryUploads(cfg, entryName, p, anns).drive == p.drive
    ensures EntryUploads(cfg, entryName, p, anns).cache == p.cache
    decreases |anns|
  {
    if anns != [] {
      var init := anns[..|anns| - 1];
      assert forall a :: a in init ==> a in anns;
      assert anns[|anns| - 1] in anns;
      EntryWithoutUploads(cfg, entryName, p, init);
    }
  }

  /** A run none of whose visited records gets as far as an upload makes no
      remote call and caches nothing. */
  lemma {:induction false} RunWithoutUploads(cfg: RunConfig, p: Progress, listing: seq<TopEntry>)
    requires forall a :: a in Accepted(listing) ==> !ReachesUpload(a)
    ensures RunUploads(cfg, p, listing).drive == p.drive
    ensures RunUploads(cfg, p, listing).cache == p.cache
    decreases |listing|
  {
    if listing != [] {
      var init := listing[..|listing| - 1];
      var e := listing[|listing| - 1];
      assert Accepted(listing) == Accepted(init) + Visited(e);
      assert forall a :: a in Accepted(init) ==> a in Accepted(listing);
      RunWithoutUploads(cfg, p, init);
      if NameCheck(e.name, false) {
        assert forall a :: a in e.annotations ==> a in Accepted(listing);
        EntryWithoutUploads(cfg, e.name, RunUploads(cfg, p, init), e.annotations);
      }
    }
  }

  /** What the walks of a run keep true of the store and the cache: the
      store's numbering, the keying's cache invariant, the root below the
      counter, and under ChildKey one key per folder, cached names that the
      store holds, and the root no folder's child. */
  ghost predicate WalkFacts(cfg: RunConfig, d: Drive, cache: Cache) {
    && DriveInv(d) && CacheInv(cfg.keying, d, cache) && cfg.rootId < d.nextId
    && (cfg.keying == ChildKey ==> OneKeyEach(d.folders) && CacheNamed(d.folders, cache) && RootFree(d.folders, cfg.rootId))
  }

  /** One walk from the root keeps the facts and only adds folders and
      cache entries. */
  lemma WalkKeepsFacts(cfg: RunConfig, d: Drive, cache: Cache, names: seq<string>)
    requires WalkFacts(cfg, d, cache)
    ensures var w := Walk(cfg.keying, d, cache, cfg.rootId, names);
      WalkFacts(cfg, w.drive, w.cache) && Extends(d.folders, w.drive.folders) && Extends(cache, w.cache)
  {
    WalkKeepsInv(cfg.keying, d, cache, cfg.rootId, names);
    WalkExtendsStore(cfg.keying, d, cache, cfg.rootId, names);
    if cfg.keying == ChildKey {
      WalkKeepsNamed(d, cache, cfg.rootId, names, cfg.rootId);
    }
  }

  /** The records of one entry keep the facts and only add folders and
      cache entries. */
  lemma {:induction false} EntryKeepsFacts(cfg: RunConfig, entryName: string, p: Progress, anns: seq<AnnotationFolder>)
    requires WalkFacts(cfg, p.drive, p.cache)
    ensures var r := EntryUploads(cfg, entryName, p, anns);
      WalkFacts(cfg, r.drive, r.cache) && Extends(p.drive.folders, r.drive.folders) && Extends(p.cache, r.cache)
    decreases |anns|
  {
    if anns != [] {
      var q := EntryUploads(cfg, entryName, p, anns[..|anns| - 1]);
      var a := anns[|anns| - 1];
      EntryKeepsFacts(cfg, entryName, p, anns[..|anns| - 1]);
      if !q.stopped && ReachesUpload(a) {
        var w := Walk(cfg.keying, q.drive, q.cache, cfg.rootId, OverlayFolders(cfg.root, entryName, a.name));
        WalkKeepsFacts(cfg, q.drive, q.cache, OverlayFolders(cfg.root, entryName, a.name));
        ExtendsTrans(p.drive.folders, q.drive.folders, w.drive.folders);
        ExtendsTrans(p.cache, q.cache, w.cache);
      }
    }
  }

  /** A whole run keeps the facts and only adds folders and cache entries. */
  lemma {:induction false} RunKeepsFacts(cfg: RunConfig, p: Progress, listing: seq<TopEntry>)
    requires WalkFacts(cfg, p.drive, p.cache)
    ensures var r := RunUploads(cfg, p, listing);
      WalkFacts(cfg, r.drive, r.cache) && Extends(p.drive.folders, r.drive.folders) && Extends(p.cache, r.cache)
    decreases |listing|
  {
    if listing != [] {
      var q := RunUploads(cfg, p, listing[..|listing| - 1]);
      var e := listing[|listing| - 1];
      RunKeepsFacts(cfg, p, listing[..|listing| - 1]);
      if NameCheck(e.name, false) {
        var r := EntryUploads(cfg, e.name, q, e.annotations);
        EntryKeepsFacts(cfg, e.name, q, e.annotations);
        ExtendsTrans(p.drive.folders, q.drive.folders, r.drive.folders);
        ExtendsTrans(p.cache, q.cache, r.cache);
      }
    }
  }

  /** For either keying, a path walked once and walked again after any
      further records of the run creates nothing the second time, leaves
      store and cache as they are, and ends on the same folder. Keyed by
      parent, the second walk also makes no call at all. */
  lemma RewalkAfterRun(cfg: RunConfig, d: Drive, cache: Cache, names: seq<string>, listing: seq<TopEntry>)
    requires WalkFacts(cfg, d, cache)
    ensures var w := Walk(cfg.keying, d, cache, cfg.rootId, names);
      var r := RunUploads(cfg, Progress(w.drive, w.cache, false), listing);
      var w2 := Walk(cfg.keying, r.drive, r.cache, cfg.rootId, names);
      && w2.folder == w.folder
      && w2.drive.folders == r.drive.folders && w2.drive.nextId == r.drive.nextId && w2.drive.creates == r.drive.creates
      && w2.cache == r.cache
      && (cfg.keying == ParentKey ==> w2.drive == r.drive)
  {
    var w := Walk(cfg.keying, d, cache, cfg.rootId, names);
    var r := RunUploads(cfg, Progress(w.drive, w.cache, false), listing);
    WalkKeepsFacts(cfg, d, cache, names);
    RunKeepsFacts(cfg, Progress(w.drive, w.cache, false), listing);
    if cfg.keying == ChildKey {
      RewalkAfterOtherWalks(d, cache, cfg.rootId, names, r.drive, r.cache);
    } else {
      KeyedRewalkAfterMore(d, cache, cfg.rootId, names, r.drive, r.cache);
    }
  }
}
