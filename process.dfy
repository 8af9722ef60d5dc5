/** `process_data`: every annotation folder of every accepted top-level
    entry becomes one row; records with a screenshot have their overlay
    uploaded first, which walks (and may create) remote folders. */
module Process {
  import opened Wrappers
  import opened Filters
  import opened Records
  import opened FolderResolver
  import opened ResolverProps
  import opened Strings
  import opened SheetWriter
  import opened Uploads

  /** How a run ends early: a record aborts processing, or the batch write
      raises. */
  datatype RunError = Aborted(reason: Abort) | SheetFailed(error: SheetError)

  /** The script's main path: the folder argument loses its trailing
      separators, its annotation folders become rows, and the rows are
      written from row 2 of the sheet. */
  method ConvertFolder(store: RemoteStore, resolver: FolderResolver, argument: string,
                       driveFolderId: FolderId, listing: seq<TopEntry>, sheetId: int, check: LinkCheck)
    returns (r: Result<SheetWrite, RunError>)
    requires StoreInv(store, resolver, driveFolderId)
    modifies store, resolver
    ensures var rows := BuildRows(Accepted(listing), check);
      && (rows.Err? ==> r == Err(Aborted(rows.error)))
      && (rows.Ok? && SheetPlan(rows.value, 2, sheetId).Ok? ==> r == Ok(SheetPlan(rows.value, 2, sheetId).value))
      && (rows.Ok? && SheetPlan(rows.value, 2, sheetId).Err? ==> r == Err(SheetFailed(SheetPlan(rows.value, 2, sheetId).error)))
    ensures StoreInv(store, resolver, driveFolderId)
    ensures var cfg := RunConfig(resolver.keying, driveFolderId, Split(StripSeparators(argument), '/'), check);
      var p := RunUploads(cfg, Progress(old(store.State()), old(resolver.cache), false), listing);
      store.State() == p.drive && resolver.cache == p.cache
  {
    var folderName := StripSeparators(argument);
    var root := Split(folderName, '/');
    var dataList := ProcessData(store, resolver, root, driveFolderId, listing, check);
    if dataList.Err? {
      return Err(Aborted(dataList.error));
    }
    var written := DictToSheet(dataList.value, 2, sheetId);
    if written.Err? {
      return Err(SheetFailed(written.error));
    }
    r := Ok(written.value);
  }

  /** What the run keeps true of the remote store and the folder cache. */
  ghost predicate StoreInv(store: RemoteStore, resolver: FolderResolver, rootId: FolderId)
    reads store, resolver
  {
    DriveInv(store.State()) && CacheInv(resolver.keying, store.State(), resolver.cache) && rootId < store.nextId
  }

  /** The rows of the run are those of `BuildRows` over the visited
      annotation folders, with the same first error; the remote store and
      the cache keep their invariants, and no folder is removed or
      renumbered. */
  method ProcessData(store: RemoteStore, resolver: FolderResolver, root: seq<string>,
                     driveFolderId: FolderId, listing: seq<TopEntry>, check: LinkCheck)
    returns (r: Result<seq<Row>, Abort>)
    requires StoreInv(store, resolver, driveFolderId)
    modifies store, resolver
    ensures r == BuildRows(Accepted(listing), check)
    ensures StoreInv(store, resolver, driveFolderId)
    ensures Extends(old(store.folders), store.folders)
    ensures Progress(store.State(), resolver.cache, r.Err?) ==
      RunUploads(RunConfig(resolver.keying, driveFolderId, root, check), Progress(old(store.State()), old(resolver.cache), false), listing)
  {
    ghost var cfg := RunConfig(resolver.keying, driveFolderId, root, check);
    ghost var start := Progress(store.State(), resolver.cache, false);
    var dataList: seq<Row> := [];
    for i := 0 to |listing|
      invariant StoreInv(store, resolver, driveFolderId)
      invariant Extends(old(store.folders), store.folders)
      invariant BuildRows(Accepted(listing[..i]), check) == Ok(dataList)
      invariant Progress(store.State(), resolver.cache, false) == RunUploads(cfg, start, listing[..i])
    {
      var entry := listing[i];
      assert listing[..i + 1][..i] == listing[..i];
      assert Accepted(listing[..i + 1]) == Accepted(listing[..i]) + Visited(entry);
      RunUploadsStep(cfg, start, listing, i);
      if NameCheck(entry.name, false) {
        var rows := ProcessEntry(store, resolver, root, driveFolderId, entry, Accepted(listing[..i]), dataList, check);
        if rows.Err? {
          AcceptedSplit(listing, i + 1);
          BuildRowsErrExtends(Accepted(listing[..i + 1]), Accepted(listing[i + 1..]), check);
          RunUploadsAfterStop(cfg, start, listing, i + 1);
          return rows;
        }
        dataList := rows.value;
      } else {
        assert Accepted(listing[..i + 1]) == Accepted(listing[..i]);
      }
    }
    assert listing[..|listing|] == listing;
    r := Ok(dataList);
  }

  /** The inner loop over the annotation folders of one accepted entry,
      continuing the rows `dataList` already built for `done`. */
  method ProcessEntry(store: RemoteStore, resolver: FolderResolver, root: seq<string>,
                      driveFolderId: FolderId, entry: TopEntry,
                      ghost done: seq<AnnotationFolder>, dataList: seq<Row>, check: LinkCheck)
    returns (r: Result<seq<Row>, Abort>)
    requires StoreInv(store, resolver, driveFolderId)
    requires BuildRows(done, check) == Ok(dataList)
    modifies store, resolver
    ensures r == BuildRows(done + entry.annotations, check)
    ensures StoreInv(store, resolver, driveFolderId)
    ensures Extends(old(store.folders), store.folders)
    ensures Progress(store.State(), resolver.cache, r.Err?) ==
      EntryUploads(RunConfig(resolver.keying, driveFolderId, root, check), entry.name,
                   Progress(old(store.State()), old(resolver.cache), false), entry.annotations)
  {
    ghost var cfg := RunConfig(resolver.keying, driveFolderId, root, check);
    ghost var start := Progress(store.State(), resolver.cache, false);
    var rows := dataList;
    assert done + entry.annotations[..0] == done;
    assert entry.annotations[..0] == [];
    for j := 0 to |entry.annotations|
      invariant StoreInv(store, resolver, driveFolderId)
      invariant Extends(old(store.folders), store.folders)
      invariant BuildRows(done + entry.annotations[..j], check) == Ok(rows)
      invariant Progress(store.State(), resolver.cache, false) == EntryUploads(cfg, entry.name, start, entry.annotations[..j])
    {
      EntryUploadsStep(cfg, entry.name, start, entry.annotations, j);
      var next := ProcessAnnotation(store, resolver, root, driveFolderId, entry, done, j, rows, check);
      if next.Err? {
        EntryUploadsAfterStop(cfg, entry.name, start, entry.annotations, j + 1);
        return next;
      }
      rows := next.value;
    }
    assert entry.annotations[..|entry.annotations|] == entry.annotations;
    r := Ok(rows);
  }

  /** The body of the inner loop for annotation folder `j` of `entry`: its
      overlay is uploaded when the record reaches the upload, then its row
      is appended, or its error ends the entry. */
  method ProcessAnnotation(store: RemoteStore, resolver: FolderResolver, root: seq<string>,
                           driveFolderId: FolderId, entry: TopEntry,
                           ghost done: seq<AnnotationFolder>, j: nat, rows: seq<Row>, check: LinkCheck)
    returns (r: Result<seq<Row>, Abort>)
    requires StoreInv(store, resolver, driveFolderId)
    requires j < |entry.annotations| && BuildRows(done + entry.annotations[..j], check) == Ok(rows)
    modifies store, resolver
    ensures r.Ok? ==> BuildRows(done + entry.annotations[..j + 1], check) == r
    ensures r.Err? ==> BuildRows(done + entry.annotations, check) == r
    ensures r.Err? <==> !Buildable(entry.annotations[j], check)
    ensures StoreInv(store, resolver, driveFolderId)
    ensures Extends(old(store.folders), store.folders)
    ensures ReachesUpload(entry.annotations[j]) ==>
      var w := Walk(resolver.keying, old(store.State()), old(resolver.cache), driveFolderId,
                    OverlayFolders(root, entry.name, entry.annotations[j].name));
      store.State() == w.drive && resolver.cache == w.cache
    ensures !ReachesUpload(entry.annotations[j]) ==>
      store.State() == old(store.State()) && resolver.cache == old(resolver.cache)
  {
    var annotation := entry.annotations[j];
    if ReachesUpload(annotation) {
      UploadOverlay(store, resolver, root, driveFolderId, entry.name, annotation.name);
    }
    var row := BuildRow(|rows|, annotation, check);
    BuildRowOkIff(|rows|, annotation, check);
    RowsStep(done, entry.annotations, j, rows, check);
    if row.Err? {
      return Err(row.error);
    }
    r := Ok(rows + [row.value]);
  }

  /** Building the row of annotation `j` of an entry after those before it:
      its row is appended, or its error is that of the whole entry. */
  lemma RowsStep(done: seq<AnnotationFolder>, anns: seq<AnnotationFolder>, j: nat, rows: seq<Row>, check: LinkCheck)
    requires j < |anns| && BuildRows(done + anns[..j], check) == Ok(rows)
    ensures BuildRow(|rows|, anns[j], check).Ok? ==>
      BuildRows(done + anns[..j + 1], check) == Ok(rows + [BuildRow(|rows|, anns[j], check).value])
    ensures BuildRow(|rows|, anns[j], check).Err? ==> BuildRows(done + anns, check) == Err(BuildRow(|rows|, anns[j], check).error)
  {
    var prefix := done + anns[..j + 1];
    PrefixSteps(done, anns, j);
    BuildRowsSnoc(done + anns[..j], anns[j], check);
    if BuildRow(|rows|, anns[j], check).Err? {
      BuildRowsErrExtends(prefix, anns[j + 1..], check);
    }
  }

  /** How the prefixes of `done + anns` grow by one element. */
  lemma PrefixSteps<T>(done: seq<T>, anns: seq<T>, j: nat)
    requires j < |anns|
    ensures done + anns[..j + 1] == done + anns[..j] + [anns[j]]
    ensures done + anns == done + anns[..j + 1] + anns[j + 1..]
  {
    assert anns[..j + 1] == anns[..j] + [anns[j]];
    assert anns == anns[..j + 1] + anns[j + 1..];
  }

  /** The folder part of `upload_file_to_drive` for the overlay image of
      one annotation folder: its directories are resolved below the root
      folder, as the walk specifies. */
  method UploadOverlay(store: RemoteStore, resolver: FolderResolver, root: seq<string>,
                       driveFolderId: FolderId, entryName: string, annotationName: string)
    requires StoreInv(store, resolver, driveFolderId)
    modifies store, resolver
    ensures var w := Walk(resolver.keying, old(store.State()), old(resolver.cache), driveFolderId,
                          OverlayFolders(root, entryName, annotationName));
      store.State() == w.drive && resolver.cache == w.cache
    ensures StoreInv(store, resolver, driveFolderId)
    ensures Extends(old(store.folders), store.folders)
  {
    var folders := OverlayFolders(root, entryName, annotationName);
    WalkKeepsInv(resolver.keying, store.State(), resolver.cache, driveFolderId, folders);
    WalkExtendsStore(resolver.keying, store.State(), resolver.cache, driveFolderId, folders);
    var _ := resolver.Resolve(store, folders, driveFolderId);
  }
}
