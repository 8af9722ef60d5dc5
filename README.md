# annotation_to_gs in Dafny

`main.py` turns a folder of web-action annotations into a Google Sheet.

1. It walks the top-level entries of the folder and skips archives and macOS metadata.
2. For every annotation folder under `act_annots` it reads `annot_dtls.json` and builds one row.
3. A row has an id, the page url, the description, the element tag, and a screenshot cell. For the screenshot, the bounding box is drawn, the overlay image `…_bbox.png` is uploaded to Drive, and the share link is turned into an `=IMAGE(...)` formula. Two reviewer columns hold the severity.
4. The rows are batch-written to a worksheet, starting at row 2.
5. The reviewer columns get a SAFE/HIGH/LOW dropdown and three colouring rules.

Uploading mirrors the local directory structure on Drive. The folders are resolved one at a time through a process-wide cache, a "list folder" query and a "create folder" call.

The model has these modules:

- `Strings`: the Python string operations the script relies on: `in`, `str.replace`, `str.rstrip`, `str.split`, and path joining.
- `Filters`: `name_check`, the overlay path of `draw_bounding_box`, the folder names the upload walks, and the clean-up of the command-line argument.
- `DriveLink`: `convert_drive_link_to_direct_url`. The regular-expression search is modelled as a leftmost greedy match.
- `FolderResolver`: the remote store and the folder walk.
  - The walk is specified by the functions `Step` and `Walk` over a value `Drive`. `Drive` holds the folders, the next fresh id, and the count of list and create calls.
  - It is implemented by the class `FolderResolver`, which owns the cache. The class works over the class `RemoteStore`, which is the store as an object.
- `ResolverProps`: what the walk guarantees and where it goes wrong.
- `Records`: the parsed detail file, the bounding-box and `tagHead` choices, the row of one record (`BuildRow`), and the rows of a run (`BuildRows`).
- `Process`: `process_data` as nested loops (`ProcessData`, `ProcessEntry`) proved equal to `BuildRows`. It also holds the script's main path (`ConvertFolder`).
- `Uploads`: what a run does to the remote side. `RunUploads` folds the overlay walks over the visited records, in order, up to the record that ends the run; `ProcessData` leaves the store and the cache exactly as it says.
- `SheetWriter`: `dict_to_sheet`.
  - `SheetPlan` is the data the service is handed: headers, cells and request batches.
  - `DictToSheet` builds that data step by step with `Cell` objects and the value-assignment loop.

Remote folder ids are numbers. Every folder is numbered after its parent, and fresh ids come from a counter. The result of an upload is an input of the model: `AnnotationFolder.uploadedLink`, where `None` means that the upload inside the `try` (main.py:85-91), the permission change or the link fetch failed. `FolderResolver.keying` and `LinkCheck` choose between the code as written (`ChildKey`, `ConvertFirst`) and the corrected code (`ParentKey`, `CheckFirst`); see Findings.

## Model

| member | source | states |
|---|---|---|
| Strings.In | main.py:30-32 | `pat in s` holds exactly when `pat` occurs somewhere in `s` |
| Strings.FindFrom | main.py:30-32 | returns the leftmost occurrence at or after `from`, or none when there is no later occurrence |
| Strings.ReplaceAllIdentity | main.py:43 | with a longer replacement, `replace` leaves a string unchanged exactly when the pattern does not occur |
| Strings.ReplaceAllAfterPlainPrefix | main.py:43 | a prefix free of the pattern's first character is kept, and the first occurrence after it is replaced |
| Strings.RStrip | main.py:354 | the result is a prefix, everything stripped is in the set, and the result does not end in the set |
| Strings.SplitJoinPath | main.py:51 | splitting a joined path on its separator returns the segments when none contains the separator |
| Filters.NameCheck | main.py:24-34 | in screenshot-only mode a name is kept iff it is `context_screen.png`; otherwise iff it contains neither `.zip` nor `DS_Store` |
| Filters.OverlayPathUnchanged | main.py:43 | the overlay path equals the screenshot path iff the path holds no `.png` |
| Filters.OverlayOfPlainName | main.py:43 | `<stem>.png` with a dot-free stem becomes `<stem>_bbox.png` |
| Filters.OverlayPathBySegment | main.py:43 | rewriting a whole path rewrites each `/`-separated segment separately |
| Filters.UploadFoldersAreRewrittenDirectories | main.py:50-51 | the folders the upload walks are the directory segments of the screenshot path, each with `.png` rewritten |
| Filters.StripSeparators | main.py:353-354 | the argument loses exactly its trailing `\` and `/` characters |
| DriveLink.RunEnd | main.py:119 | the group `[a-zA-Z0-9_-]+` extends greedily to the first non-id character |
| DriveLink.MatchesAtIsRegexMatch | main.py:119 | the greedy attempt at a position succeeds iff the regular expression matches there, and its group end is the only possible one |
| DriveLink.SearchFrom | main.py:119 | finds the leftmost matching position, and none when nothing matches |
| DriveLink.ConvertDriveLink | main.py:117-124 | an error means no position matches; a result is the direct-URL prefix plus the group of the leftmost match |
| DriveLink.ConvertFailsIffNoMatch | main.py:119-124 | the conversion raises iff the regular expression matches nowhere |
| DriveLink.ConvertShareLink | main.py:119-122 | `<pre>/d/<id>/<rest>` with no earlier match converts to the direct URL of `<id>` |
| DriveLink.ConvertAt | main.py:119-122 | a link whose first match is at `i` converts to the direct-URL prefix followed by that match's group |
| DriveLink.PlainPrefixHasNoMatch | main.py:119 | a prefix without `/` holds no earlier match |
| DriveLink.ConvertExample | main.py:119-122 | `.../d/ABC123/view` converts to `https://drive.google.com/uc?id=ABC123` |
| DriveLink.ConvertWithoutSegment | main.py:123-124 | a link without `/d/` is rejected |
| FolderResolver.Step | main.py:56-77 | a cache hit moves to the cached id with no call. A miss makes one list call, and a create call only when the listing is empty. It then caches exactly one entry for the resolved folder under the keying's key. |
| FolderResolver.Walk | main.py:53-77 | no names means no change and no call; list calls grow by at most the number of names, creates by at most the list calls, and fresh ids by exactly the creates |
| FolderResolver.RemoteStore.constructor | main.py:47-77 | a store starts with the given folders and no calls |
| FolderResolver.RemoteStore.FindFolder | main.py:59-62 | one more list call; returns the folder of that name under that parent, if any |
| FolderResolver.RemoteStore.CreateFolder | main.py:64-71 | one more create call; the new folder gets the next fresh id |
| FolderResolver.FolderResolver.constructor | main.py:10 | the cache starts empty |
| FolderResolver.FolderResolver.Resolve | main.py:53-77 | the new store, cache and returned folder are exactly those of `Walk` from the old ones |
| ResolverProps.WalkSnoc | main.py:53-77 | the result is the folder resolved for the last component: walking one more name is one more step |
| ResolverProps.WalkExtendsStore | main.py:54-77 | the walk never removes or re-points a folder of the store |
| ResolverProps.StepKeepsInv | main.py:56-77 | one step keeps the store numbering and the keying's cache invariant, and never changes a cached entry |
| ResolverProps.WalkKeepsInv | main.py:54-77 | the walk keeps the store numbering and the cache invariant, and ends below the counter and no lower than it started. It never changes a cached entry. As written, every new entry is keyed by a folder numbered above the start. |
| ResolverProps.RewalkCreatesNothing | main.py:54-77 | as written, immediately walking the same path again creates nothing and ends on the same folder; store and cache are unchanged |
| ResolverProps.RewalkAfterOtherWalks | main.py:54-77 | as written, in a store where every folder has one parent and one name, a path walked from the root is walked again after any other walks without creating anything, ending on the same folder, with store and cache unchanged |
| ResolverProps.RewalkRepeatsLookups | main.py:56-77 | as written, a second walk of `a/b` misses the cache again and makes two more list calls |
| ResolverProps.RepeatedNameResolvesToParent | main.py:72-77 | as written, the path `a/a` resolves to `a` after one list call, and `a/a` is never created |
| ResolverProps.KeyedWalkExtendsCache | main.py:56-57 | keyed by parent, the walk only adds cache entries |
| ResolverProps.KeyedRewalkIsFree | main.py:56-57 | keyed by parent, immediately walking the same path again is answered from the cache with the same folder and no call |
| ResolverProps.KeyedRewalkAfterMore | main.py:56-57 | keyed by parent, a path walked again with any cache that extends the first walk's cache is answered from the cache: the same folder, no call, whatever the store |
| ResolverProps.WalkKeepsNamed | main.py:54-77 | as written, a walk keeps every folder under one key, every cached name held by the store, and the root out of the store |
| ResolverProps.StepKeepsNamed | main.py:56-77 | one step keeps the same three facts |
| ResolverProps.KeyedWalkFollowsStore | main.py:53-77 | keyed by parent, the folder returned is the one the store holds at that path |
| ResolverProps.KeyedRepeatedNameCreatesChild | main.py:72-77 | keyed by parent, `a/a` resolves to a new folder below `a` |
| Records.LookupAt | main.py:152 | in a dict with distinct keys each key finds its own value |
| Records.LookupAbsent | main.py:152 | a key the dict lacks finds nothing |
| Records.SelectBox | main.py:301-314 | the box is the first present one in the order mouse position, target, actually highlighted; none only when all three lack one |
| Records.TagHead | main.py:290-293 | succeeds iff the target or the mouse-position data has a tag; the target's tag comes first |
| Records.ScreenshotCells | main.py:297-332 | no screenshot gives `Screenshot not found` and None. With a screenshot, a success is the `=IMAGE` formula of the converted link plus the link. A failed upload aborts. `Failed to upload screenshot` is never produced. |
| Records.ScreenshotCellsChecked | main.py:322-327 | with the check first, a failed upload never aborts, and `Failed to upload screenshot` appears with None exactly when the upload failed |
| Records.FailedUploadOutcome | main.py:322-327 | for a failed upload, the code as written aborts with the TypeError; the checked form records the failure |
| Records.CheckedAgreesWithLink | main.py:322-327 | both forms agree whenever there is no screenshot or the upload produced a link |
| Records.BuildRowOkIff | main.py:280-335 | a record yields a row iff every key it needs is present. A screenshot also needs a bounding box and a convertible link, and, as written, a link at all. |
| Records.BuildRowKeys | main.py:282-335 | every row has the keys action_id, url, description, tagHead, Screenshot, Screenshot View, Annotation, Your Review, in that order |
| Records.BuiltRowCells | main.py:283-335 | each cell holds its value: the id, url, description and tag; the screenshot cells for each outcome; and the severity twice |
| Records.BuildRows | main.py:277-337 | a successful run has one row per record |
| Records.BuildRowsCharacterised | main.py:277-337 | the run succeeds iff every record builds, and then row `i` is record `i`'s row with id `i` |
| Records.BuildRowsAt | main.py:283-337 | in a successful run, row `i` is the row record `i` yields with id `i` |
| Records.BuildRowsFirstError | main.py:277-337 | a failed run fails with the error of its first record that cannot be processed; every earlier record builds |
| Records.RowsShape | main.py:283-284 | ids are 0..N-1 in traversal order, all rows have the same keys, and both reviewer cells equal the severity |
| Records.RowsHaveColumns | main.py:282-335 | every row of a successful run has the eight keys in insertion order |
| Records.BuildRowsSnoc | main.py:282-337 | one more record appends its row or ends the run with its error |
| Records.BuildRowsErrExtends | main.py:277-337 | once a record fails, later records change nothing |
| Records.AcceptedAppend | main.py:277-279 | the visited records of a concatenated listing are the two parts' records, in order |
| Records.AcceptedSplit | main.py:277-279 | the same, at any split point of one listing |
| Records.AcceptedCount | main.py:277-279 | the number of visited records is the sum over the entries that pass the name filter |
| Process.ProcessData | main.py:273-339 | the result is `BuildRows` of the visited records, with the same first error. The new store and cache are those of `RunUploads`: the overlay walks of the visited records in order, up to the record that ends the run. Both keep their invariants, and no folder is lost. |
| Process.ProcessEntry | main.py:279-337 | the inner loop continues the rows of the records before it, with the same result as `BuildRows`; the new store and cache are those of `EntryUploads` over the entry's records |
| Process.ProcessAnnotation | main.py:283-337 | one iteration. When the record reaches the upload, the new store and cache are those of `Walk` over its overlay folders; otherwise both are unchanged. Its row is then appended, or its error ends the entry, as `BuildRows` says, and that happens exactly when the record is not buildable. |
| Process.RowsStep | main.py:280-337 | one iteration of the inner loop appends the record's row or ends with its error |
| Process.UploadOverlay | main.py:321-322 | the folders of an overlay upload are resolved exactly as `Walk` specifies |
| Process.ConvertFolder | main.py:353-358 | a record error ends the run with it; otherwise the result is the sheet write of the rows from row 2, or its error. The new store and cache are those of `RunUploads` below the stripped argument's segments. |
| Uploads.UploadStepStops | main.py:283-335 | a record ends the run exactly when the run had already ended or the record cannot be built |
| Uploads.EntryUploadsWhenStopped | main.py:279-337 | once the run has ended, the records after it call nothing and cache nothing |
| Uploads.EntryUploadsAfterStop | main.py:279-337 | the record that ends the run fixes the store and cache of its whole entry |
| Uploads.RunUploadsAfterStop | main.py:277-337 | the record that ends the run fixes the store and cache of the whole run |
| Uploads.EntryStopsIffError | main.py:279-337 | within an entry, the overlay walks stop exactly where building the rows fails |
| Uploads.RunStopsIffError | main.py:277-337 | over the whole run, the overlay walks stop iff `BuildRows` of the visited records fails |
| Uploads.WalkKeepsFacts | main.py:53-77 | one walk from the root keeps the store numbering, the cache invariant and, as written, the one-key and naming facts; it only adds folders and cache entries |
| Uploads.EntryKeepsFacts | main.py:279-337 | the records of one entry keep those facts and only add folders and cache entries |
| Uploads.RunKeepsFacts | main.py:277-337 | a whole run keeps those facts and only adds folders and cache entries |
| Uploads.RewalkAfterRun | main.py:53-77 | for either keying, a path walked once and again after any further records of the run creates nothing, leaves store and cache as they are and ends on the same folder; keyed by parent it makes no call |
| Uploads.EntryWithoutUploads | main.py:297-322 | an entry none of whose records reaches the upload leaves store and cache unchanged |
| Uploads.RunWithoutUploads | main.py:277-322 | a run none of whose visited records reaches the upload makes no folder call and caches nothing |
| SheetWriter.IndexOf | main.py:162 | `keys.index(key)`: the first position of the key |
| SheetWriter.ReviewBatchShape | main.py:163-269 | a batch is one SAFE/HIGH/LOW dropdown with a custom UI, then one rule per level in order, at index 0; every request applies to the column's data range |
| SheetWriter.DataRangeCovers | main.py:167-173 | the range covers exactly the zero-based cells of that column in the written data rows |
| SheetWriter.BatchesForReviewColumns | main.py:160-162 | one batch per reviewer column present, Annotation first, each for the column's first index |
| SheetWriter.RowValues | main.py:152 | a row's values in key order; a KeyError iff the row lacks a key |
| SheetWriter.Flatten | main.py:152 | flattening succeeds iff every row has every key |
| SheetWriter.FlattenLength | main.py:152 | the flat list has one entry per row and key |
| SheetWriter.FlattenAt | main.py:152 | entry `i * nc + j` is row `i`'s value for key `j` |
| SheetWriter.RangeCoordsLength | main.py:151 | the cell range has one cell per row and column |
| SheetWriter.RangeCoordAt | main.py:151 | cell `i * nc + j` of the range is at row `startRow + i`, column `j + 1` |
| SheetWriter.SheetPlanParts | main.py:143-157 | the write of a non-empty list succeeds iff flattening does, with the headers and cells above |
| SheetWriter.SheetPlanFails | main.py:143-152 | the write fails iff the list is empty or some row lacks a key of the first row |
| SheetWriter.SheetLayout | main.py:143-157 | headers are the first row's keys, and there is one cell per row and key. The cell at row `startRow + i`, column `j + 1` holds row `i`'s value for key `j`. |
| SheetWriter.UniformPlan | main.py:143-162 | rows that share the same distinct keys are written whole: entry `j` of row `i` goes to row `startRow + i`, column `j + 1`, and batches follow the keys |
| SheetWriter.Cell.constructor | main.py:151 | a cell of the range has its coordinates and no value yet |
| SheetWriter.AssignValues | main.py:153-154 | each cell takes the value at its position, and cells beyond the values keep theirs |
| SheetWriter.WriteHeaders | main.py:146-148 | the header loop writes key `j` to row 1, column `j + 1` |
| SheetWriter.NewCells | main.py:151 | the cell range has one fresh, distinct cell per coordinate, in order |
| SheetWriter.CollectWrites | main.py:153-157 | the batch write sends each assigned cell with its coordinates and value, up to the shorter of cells and values |
| SheetWriter.ReviewBatches | main.py:160-268 | the loop over the reviewer columns yields one batch per column present, at its first index |
| SheetWriter.DictToSheet | main.py:137-270 | the headers, written cells and batches are exactly `SheetPlan`, and so are its errors |
| SheetWriter.AnnotationColumns | main.py:162 | in a row, Annotation is column index 6 and Your Review index 7 |
| SheetWriter.IndexOfDistinct | main.py:162 | among distinct keys, `keys.index` of the key at `k` is `k` |
| SheetWriter.ColumnBatches | main.py:160-268 | for the eight columns, the batches are those of columns 6 and 7, Annotation first |
| SheetWriter.RunFillsSheet | main.py:357-358 | the rows of a successful non-empty run, written from row 2, get the eight headers, every record in its own sheet row, and batches for columns 6 and 7 over exactly the data rows |

## Left out

- Authentication (main.py:12-21), the file upload, the permission change and the `webViewLink` fetch (main.py:79-114) are remote calls. Their outcome is the input `uploadedLink`; the failure printing is not modelled.
- `RemoteStore.FindFolder` and `RemoteStore.CreateFolder` never fail, and neither does opening the overlay in `MediaFileUpload` (main.py:84). In the source the folder query (main.py:60-61), the create call (main.py:71) and that open sit outside any `try`, so a failure there ends the whole run, and the folders the walk already created stay created. A folder name containing `'` breaks the query string, and an overlay that was never written, such as one whose directory segment contains `.png`, makes the open fail. The model does not capture these aborts.
- Worksheet lookup and creation (main.py:126-140), and the actual `update_cell`, `update_cells` and `batchUpdate` calls, are remote I/O. The model stops at the data handed to them. The worksheet name, which is the stripped argument, is not part of `SheetWrite`.
- OpenCV reading, drawing and writing of the image (main.py:39-42, 44) are a foreign library. The float-to-int truncation of the coordinates is one too, so `BoundingBox` holds integers. Only the output path (line 43) is modelled.
- The background colours of the rules (main.py:207, 234, 261) are constant floats and are not modelled.
- `os.listdir` order, `tqdm` and reading the JSON files are plumbing. The listing and the parsed details are inputs, in listing order. A file that cannot be opened or parsed is `detail == None`.
- The `os.listdir` of `<entry>/act_annots` (main.py:279) raises for an accepted entry that is a plain file or has no `act_annots` folder, and that ends the run. `TopEntry.annotations` is always a list, so the model does not capture this failure: every accepted entry is taken to have the folder.
- `dict_to_sheet` sends the header `update_cell` calls (main.py:146-148) before the flattening can raise its `KeyError` (main.py:152). `SheetPlan` and `DictToSheet` return only the error in that case, not the headers already written.
- `os.path.relpath` is not modelled. The screenshot path is taken as the joined segments of the argument and the entry names, with `/` as `os.sep`.
  - `ConvertFolder` splits the argument on `/`. It does not normalise `.`, `..` or empty segments.
  - `UploadFoldersAreRewrittenDirectories` assumes segments free of `/`.
- `process_data` and `ConvertFolder` cover only the JSON shapes the datatypes describe. A key present with the value null is treated as missing, and non-object values are not modelled.
  - Element data that is present but not an object raises inside the `try` and ends the run. In the model it is simply absent.
- `exit()` and uncaught exceptions are modelled as `Abort` results. The row being built, and anything printed, is dropped.
- The store is a map with at most one folder per name and parent. Duplicate folders, where the `pageSize=1` listing returns one of them, are not modelled.
- Folder ids are numbers ordered parent before child, not Drive's opaque strings.
- SelectBox: does not model a `boundingBox` key present with a null value. Whichever element data the lookup reaches first with that key, mouse position, target or actually highlighted, the source takes the null and exits (main.py:304-314); the model moves to the next candidate.

## Findings

| source | as written | input that shows it | evidently intended | confidence | as-written member | corrected member |
|---|---|---|---|---|---|---|
| main.py:72-77 | After a miss, the cache entry is stored under `(parent_id, folder)` after `parent_id` has already become the child's id | Path `a/a` under an empty root folder. The second lookup hits the entry cached for `a`, so the file lands in `a` and `a/a` is never created. A second upload below `a/b` misses the cache every time. | Cache under the parent's id, before reassigning | high (not executed) | ResolverProps.RepeatedNameResolvesToParent | ResolverProps.KeyedRepeatedNameCreatesChild |
| main.py:322-327 | `convert_drive_link_to_direct_url(public_url)` runs before `if public_url` | A record with a screenshot whose upload returns None. The regular-expression search gets None and raises, so the run ends and `Failed to upload screenshot` is never written. | Check the link first and write the failure sentinel | high (not executed) | Records.FailedUploadOutcome | Records.ScreenshotCellsChecked |

For the cache, `ResolverProps.KeyedWalkFollowsStore`, `ResolverProps.KeyedRewalkAfterMore` and `Uploads.RewalkAfterRun` prove the intended behaviour for every path. With the parent's key, the walk returns the folder the store holds at that path, and an upload repeated anywhere later in the run makes no call. As written, a repeated upload still creates nothing when every folder has one parent and one name, but it repeats the list calls. `FolderResolver.FolderResolver` takes the keying as a constructor argument, and `Process` holds for either keying.

For the link check, `Records.BuildRow`, `BuildRows`, `ProcessData` and `ConvertFolder` take the `LinkCheck` to use. `Records.BuiltRowCells` proves that under `CheckFirst` a failed upload yields `Failed to upload screenshot` with None. Under `ConvertFirst` such a record never yields a row.
