/** The annotation records `process_data` reads and the row it builds for
    each of them. The JSON detail file is given already parsed: a key that
    may be missing is an `Option`, and a file that cannot be opened or
    parsed is `None`. */
module Records {
  import opened Wrappers
  import opened Filters
  import opened DriveLink

  datatype BoundingBox = BoundingBox(tLx: int, tLy: int, bRx: int, bRy: int)

  /** One of the element-data objects of a record; either key may be
      missing. */
  datatype ElementData = ElementData(tagHead: Option<string>, boundingBox: Option<BoundingBox>)

  /** The keys of `annot_dtls.json` the run reads. */
  datatype Detail = Detail(
    url: Option<string>,
    description: Option<string>,
    actionStateChangeSeverity: Option<string>,
    targetElementData: Option<ElementData>,
    mousePosElementData: Option<ElementData>,
    actuallyHighlightedElementData: Option<ElementData>)

  /** One folder under `act_annots`: its name, its parsed detail file,
      whether `context_screen.png` exists beside it, and the link the upload
      of its overlay image comes back with (`None` when the upload or the
      permission change failed). */
  datatype AnnotationFolder = AnnotationFolder(
    name: string,
    detail: Option<Detail>,
    hasScreenshot: bool,
    uploadedLink: Option<string>)

  /** One entry of the input folder, with the folders under its
      `act_annots`, in listing order. */
  datatype TopEntry = TopEntry(name: string, annotations: seq<AnnotationFolder>)

  /** A cell value: the id is a number, the view link may be Python's None. */
  datatype Value = Int(n: int) | Text(s: string) | Null

  /** A row is a Python dict: keys in insertion order with their values. */
  type Row = seq<(string, Value)>

  /** The ways processing a record ends the whole run. */
  datatype Abort =
    | DetailUnreadable        // open or json.load fails
    | MissingKey(key: string) // a KeyError on the detail's keys
    | NoBoundingBox           // the `exit()` of the bounding-box lookup
    | LinkNotAString          // the regex search given None (a TypeError)
    | BadShareLink            // the ValueError of the link conversion

  const NotFound: string := "Screenshot not found"
  const UploadFailed: string := "Failed to upload screenshot"

  /** The keys of every row, in the order `process_data` inserts them. */
  const Columns: seq<string> :=
    ["action_id", "url", "description", "tagHead", "Screenshot", "Screenshot View", "Annotation", "Your Review"]

  function Keys(row: Row): (keys: seq<string>)
    ensures |keys| == |row|
    ensures forall k :: 0 <= k < |row| ==> keys[k] == row[k].0
  {
    seq(|row|, k requires 0 <= k < |row| => row[k].0)
  }

  /** `row[key]`: the value of the first entry with that key. */
  function Lookup(row: Row, key: string): Option<Value>
    decreases |row|
  {
    if row == [] then None
    else if row[0].0 == key then Some(row[0].1)
    else Lookup(row[1..], key)
  }

  predicate DistinctKeys(keys: seq<string>) {
    forall i, j :: 0 <= i < j < |keys| ==> keys[i] != keys[j]
  }

  /** In a row with distinct keys, each key finds its own entry. */
  lemma {:induction false} LookupAt(row: Row, k: nat)
    requires DistinctKeys(Keys(row)) && k < |row|
    ensures Lookup(row, row[k].0) == Some(row[k].1)
    decreases k
  {
    if k > 0 {
      assert Keys(row[1..]) == Keys(row)[1..];
      assert row[0].0 != row[k].0 by {
        assert Keys(row)[0] != Keys(row)[k];
      }
      LookupAt(row[1..], k - 1);
    }
  }

  /** A key the row does not have finds nothing (a KeyError). */
  lemma {:induction false} LookupAbsent(row: Row, key: string)
    requires key !in Keys(row)
    ensures Lookup(row, key) == None
    decreases |row|
  {
    if row != [] {
      assert Keys(row)[0] == row[0].0;
      assert Keys(row[1..]) == Keys(row)[1..];
      LookupAbsent(row[1..], key);
    }
  }

  lemma ColumnsDistinct()
    ensures DistinctKeys(Columns)
  {
  }

  /** The value of an element-data key: absent when the object is. */
  function BoxOf(e: Option<ElementData>): Option<BoundingBox> {
    if e.Some? then e.value.boundingBox else None
  }

  function TagOf(e: Option<ElementData>): Option<string> {
    if e.Some? then e.value.tagHead else None
  }

  /** `k` is the first candidate, in priority order, that is present. */
  ghost predicate FirstPresent<T>(candidates: seq<Option<T>>, k: int) {
    0 <= k < |candidates| && candidates[k].Some?
    && forall j :: 0 <= j < k ==> candidates[j].None?
  }

  /** The bounding-box lookup of `process_data`, in its priority order. */
  function BoxCandidates(d: Detail): seq<Option<BoundingBox>> {
    [BoxOf(d.mousePosElementData), BoxOf(d.targetElementData), BoxOf(d.actuallyHighlightedElementData)]
  }

  /** The bounding box drawn: the one of the first element data, in the
      order mouse position, target, actually highlighted, that has one. */
  function SelectBox(d: Detail): (r: Option<BoundingBox>)
    ensures r.None? <==> forall k :: 0 <= k < 3 ==> BoxCandidates(d)[k].None?
    ensures r.Some? ==> exists k :: FirstPresent(BoxCandidates(d), k) && BoxCandidates(d)[k] == r
  {
    if d.mousePosElementData.Some? && d.mousePosElementData.value.boundingBox.Some? then
      assert FirstPresent(BoxCandidates(d), 0);
      d.mousePosElementData.value.boundingBox
    else if d.targetElementData.Some? && d.targetElementData.value.boundingBox.Some? then
      assert FirstPresent(BoxCandidates(d), 1);
      d.targetElementData.value.boundingBox
    else if d.actuallyHighlightedElementData.Some? && d.actuallyHighlightedElementData.value.boundingBox.Some? then
      assert FirstPresent(BoxCandidates(d), 2);
      d.actuallyHighlightedElementData.value.boundingBox
    else
      None
  }

  function TagCandidates(d: Detail): seq<Option<string>> {
    [TagOf(d.targetElementData), TagOf(d.mousePosElementData)]
  }

  /** The `tagHead` cell: from the target element data, and when that
      lookup fails for any reason, from the mouse-position element data; a
      KeyError of the fallback ends the run. */
  function TagHead(d: Detail): (r: Result<string, Abort>)
    ensures r.Ok? <==> exists k :: FirstPresent(TagCandidates(d), k)
    ensures r.Ok? ==> exists k :: FirstPresent(TagCandidates(d), k) && TagCandidates(d)[k] == Some(r.value)
  {
    if d.targetElementData.Some? && d.targetElementData.value.tagHead.Some? then
      assert FirstPresent(TagCandidates(d), 0);
      Ok(d.targetElementData.value.tagHead.value)
    else if d.mousePosElementData.None? then
      Err(MissingKey("mousePosElementData"))
    else if d.mousePosElementData.value.tagHead.None? then
      Err(MissingKey("tagHead"))
    else
      assert FirstPresent(TagCandidates(d), 1);
      Ok(d.mousePosElementData.value.tagHead.value)
  }

  function Required(v: Option<string>, key: string): (r: Result<string, Abort>)
    ensures r.Ok? <==> v.Some?
    ensures r.Ok? ==> r.value == v.value
    ensures r.Err? ==> r.error == MissingKey(key)
  {
    if v.Some? then Ok(v.value) else Err(MissingKey(key))
  }

  function ImageFormula(url: string): string {
    "=IMAGE(\"" + url + "\")"
  }

  /** The `Screenshot` and `Screenshot View` cells. With a screenshot, the
      bounding box is looked up (its absence ends the run), the overlay is
      uploaded, and the returned link is converted BEFORE it is checked:
      a failed upload (None) makes the conversion raise, so the "Failed to
      upload screenshot" branch is never reached. */
  function ScreenshotCells(d: Detail, a: AnnotationFolder): (r: Result<(Value, Value), Abort>)
    ensures !a.hasScreenshot ==> r == Ok((Text(NotFound), Null))
    ensures a.hasScreenshot && r.Ok? ==>
      && SelectBox(d).Some? && a.uploadedLink.Some?
      && ConvertDriveLink(a.uploadedLink.value).Ok?
      && r.value == (Text(ImageFormula(ConvertDriveLink(a.uploadedLink.value).value)), Text(a.uploadedLink.value))
    ensures a.hasScreenshot && SelectBox(d).Some? && a.uploadedLink.None? ==> r == Err(LinkNotAString)
    ensures r.Ok? ==> r.value.0 != Text(UploadFailed)
  {
    if !a.hasScreenshot then Ok((Text(NotFound), Null))
    else if SelectBox(d).None? then Err(NoBoundingBox)
    else
      match a.uploadedLink
      case None => Err(LinkNotAString)
      case Some(link) =>
        match ConvertDriveLink(link)
        case Err(_) => Err(BadShareLink)
        case Ok(direct) => Ok((Text(ImageFormula(direct)), Text(link)))
  }

  /** The same cells with the emptiness check made before the conversion,
      as the `if public_url` branch evidently intends. */
  function ScreenshotCellsChecked(d: Detail, a: AnnotationFolder): (r: Result<(Value, Value), Abort>)
    ensures a.hasScreenshot && SelectBox(d).Some? && a.uploadedLink.None? ==> r.Ok?
    ensures a.hasScreenshot && r.Ok? ==> (r.value.0 == Text(UploadFailed) <==> a.uploadedLink.None?)
    ensures a.hasScreenshot && r.Ok? && a.uploadedLink.None? ==> r.value.1 == Null
  {
    if !a.hasScreenshot then Ok((Text(NotFound), Null))
    else if SelectBox(d).None? then Err(NoBoundingBox)
    else
      match a.uploadedLink
      case None => Ok((Text(UploadFailed), Null))
      case Some(link) =>
        match ConvertDriveLink(link)
        case Err(_) => Err(BadShareLink)
        case Ok(direct) => Ok((Text(ImageFormula(direct)), Text(link)))
  }

  /** As written, a failed upload ends the run; with the check first, the
      row records the failure and the run goes on. Both agree whenever the
      upload produced a link. */
  lemma FailedUploadOutcome(d: Detail, a: AnnotationFolder)
    requires a.hasScreenshot && SelectBox(d).Some? && a.uploadedLink.None?
    ensures ScreenshotCells(d, a) == Err(LinkNotAString)
    ensures ScreenshotCellsChecked(d, a) == Ok((Text(UploadFailed), Null))
  {
  }

  lemma CheckedAgreesWithLink(d: Detail, a: AnnotationFolder)
    requires a.uploadedLink.Some? || !a.hasScreenshot
    ensures ScreenshotCellsChecked(d, a) == ScreenshotCells(d, a)
  {
  }

  /** Where the check of the upload result sits: after the conversion, as
      written, or before it, as intended. */
  datatype LinkCheck = ConvertFirst | CheckFirst

  function Cells(d: Detail, a: AnnotationFolder, check: LinkCheck): Result<(Value, Value), Abort> {
    match check
    case ConvertFirst => ScreenshotCells(d, a)
    case CheckFirst => ScreenshotCellsChecked(d, a)
  }

  /** The record gets as far as the upload: its url, description and tag
      are readable, it has a screenshot, and a bounding box is found. */
  predicate ReachesUpload(a: AnnotationFolder) {
    && a.detail.Some?
    && a.detail.value.url.Some?
    && a.detail.value.description.Some?
    && TagHead(a.detail.value).Ok?
    && a.hasScreenshot
    && SelectBox(a.detail.value).Some?
  }

  /** Every key the row needs is there, and a screenshot, if any, has a
      bounding box and an upload link that converts; as written, the upload
      must also have produced a link. */
  ghost predicate Buildable(a: AnnotationFolder, check: LinkCheck) {
    && a.detail.Some?
    && var d := a.detail.value;
    && d.url.Some? && d.description.Some? && d.actionStateChangeSeverity.Some?
    && (exists k :: FirstPresent(TagCandidates(d), k))
    && (a.hasScreenshot ==>
         && SelectBox(d).Some?
         && (a.uploadedLink.Some? ==> ConvertDriveLink(a.uploadedLink.value).Ok?)
         && (check == ConvertFirst ==> a.uploadedLink.Some?))
  }

  /** The row of one annotation, with the running id `actionId`; the keys
      are read in the order the code reads them, so the first missing one
      is the one reported. */
  function BuildRow(actionId: nat, a: AnnotationFolder, check: LinkCheck): (r: Result<Row, Abort>)
  {
    var d :- if a.detail.Some? then Ok(a.detail.value) else Err(DetailUnreadable);
    var url :- Required(d.url, "url");
    var description :- Required(d.description, "description");
    var tag :- TagHead(d);
    var shot :- Cells(d, a, check);
    var severity :- Required(d.actionStateChangeSeverity, "actionStateChangeSeverity");
    Ok(MakeRow([Int(actionId), Text(url), Text(description), Text(tag), shot.0, shot.1, Text(severity), Text(severity)]))
  }

  /** The dict of one record: the columns paired with their values. */
  function MakeRow(values: seq<Value>): (row: Row)
    requires |values| == |Columns|
    ensures Keys(row) == Columns
    ensures forall k :: 0 <= k < |row| ==> row[k].1 == values[k]
  {
    seq(|Columns|, k requires 0 <= k < |Columns| => (Columns[k], values[k]))
  }

  /** A record yields a row exactly when it is buildable. */
  lemma BuildRowOkIff(actionId: nat, a: AnnotationFolder, check: LinkCheck)
    ensures BuildRow(actionId, a, check).Ok? <==> Buildable(a, check)
  {
  }

  /** Every built row has the columns, in order. */
  lemma BuildRowKeys(actionId: nat, a: AnnotationFolder, check: LinkCheck)
    requires BuildRow(actionId, a, check).Ok?
    ensures Keys(BuildRow(actionId, a, check).value) == Columns
  {
    var row := BuildRow(actionId, a, check).value;
    assert |row| == 8;
    assert Keys(row) == Columns;
  }

  /** What each cell of a built row holds. */
  lemma BuiltRowCells(actionId: nat, a: AnnotationFolder, check: LinkCheck)
    requires Buildable(a, check)
    ensures BuildRow(actionId, a, check).Ok?
    ensures var row := BuildRow(actionId, a, check).value; var d := a.detail.value;
      && Lookup(row, "action_id") == Some(Int(actionId))
      && Lookup(row, "url") == Some(Text(d.url.value))
      && Lookup(row, "description") == Some(Text(d.description.value))
      && Lookup(row, "tagHead") == Some(Text(TagHead(d).value))
      && Lookup(row, "Annotation") == Some(Text(d.actionStateChangeSeverity.value))
      && Lookup(row, "Your Review") == Lookup(row, "Annotation")
      && (!a.hasScreenshot ==>
            Lookup(row, "Screenshot") == Some(Text(NotFound)) && Lookup(row, "Screenshot View") == Some(Null))
      && (a.hasScreenshot && a.uploadedLink.Some? ==>
            && Lookup(row, "Screenshot") == Some(Text(ImageFormula(ConvertDriveLink(a.uploadedLink.value).value)))
            && Lookup(row, "Screenshot View") == Some(Text(a.uploadedLink.value)))
      && (a.hasScreenshot && a.uploadedLink.None? ==>
            && check == CheckFirst
            && Lookup(row, "Screenshot") == Some(Text(UploadFailed))
            && Lookup(row, "Screenshot View") == Some(Null))
  {
    BuildRowOkIff(actionId, a, check);
    BuildRowKeys(actionId, a, check);
    var row := BuildRow(actionId, a, check).value;
    ColumnsDistinct();
    LookupAt(row, 0);
    LookupAt(row, 1);
    LookupAt(row, 2);
    LookupAt(row, 3);
    LookupAt(row, 4);
    LookupAt(row, 5);
    LookupAt(row, 6);
    LookupAt(row, 7);
  }

  /** The rows of the annotations in order, ids counting from 0; the first
      record that cannot be processed ends the run. */
  function BuildRows(anns: seq<AnnotationFolder>, check: LinkCheck): (r: Result<seq<Row>, Abort>)
    ensures r.Ok? ==> |r.value| == |anns|
    decreases |anns|
  {
    if anns == [] then Ok([])
    else
      var rows :- BuildRows(anns[..|anns| - 1], check);
      var row :- BuildRow(|anns| - 1, anns[|anns| - 1], check);
      Ok(rows + [row])
  }

  /** The run succeeds exactly when every record builds; then row `i` is
      the row of record `i` with id `i`. */
  lemma BuildRowsCharacterised(anns: seq<AnnotationFolder>, check: LinkCheck)
    ensures BuildRows(anns, check).Ok? <==> forall i :: 0 <= i < |anns| ==> BuildRow(i, anns[i], check).Ok?
    ensures BuildRows(anns, check).Ok? ==>
      forall i :: 0 <= i < |anns| ==> BuildRow(i, anns[i], check) == Ok(BuildRows(anns, check).value[i])
  {
    if BuildRows(anns, check).Ok? {
      forall i | 0 <= i < |anns|
        ensures BuildRow(i, anns[i], check) == Ok(BuildRows(anns, check).value[i])
      {
        BuildRowsAt(anns, check, i);
      }
    } else {
      BuildRowsFirstError(anns, check);
    }
  }

  /** Row `i` of a successful run is the row of record `i`, with id `i`. */
  lemma {:induction false} BuildRowsAt(anns: seq<AnnotationFolder>, check: LinkCheck, i: nat)
    requires BuildRows(anns, check).Ok? && i < |anns|
    ensures BuildRow(i, anns[i], check) == Ok(BuildRows(anns, check).value[i])
    decreases |anns|
  {
    var n := |anns| - 1;
    var prefix := anns[..n];
    assert BuildRows(prefix, check).Ok?;
    assert BuildRows(anns, check).value == BuildRows(prefix, check).value + [BuildRow(n, anns[n], check).value];
    if i < n {
      BuildRowsAt(prefix, check, i);
      assert prefix[i] == anns[i];
    }
  }

  /** A run that fails fails with the error of its first record that
      cannot be processed. */
  lemma {:induction false} BuildRowsFirstError(anns: seq<AnnotationFolder>, check: LinkCheck)
    requires BuildRows(anns, check).Err?
    ensures exists i :: (0 <= i < |anns|
      && BuildRow(i, anns[i], check) == Err(BuildRows(anns, check).error)
      && forall j :: 0 <= j < i ==> BuildRow(j, anns[j], check).Ok?)
    decreases |anns|
  {
    var n := |anns| - 1;
    var prefix := anns[..n];
    assert forall i :: 0 <= i < n ==> prefix[i] == anns[i];
    if BuildRows(prefix, check).Err? {
      assert BuildRows(anns, check) == BuildRows(prefix, check);
      BuildRowsFirstError(prefix, check);
      var i :| 0 <= i < n && BuildRow(i, prefix[i], check) == Err(BuildRows(prefix, check).error)
               && forall j :: 0 <= j < i ==> BuildRow(j, prefix[j], check).Ok?;
      assert BuildRow(i, anns[i], check) == Err(BuildRows(anns, check).error);
    } else {
      forall j | 0 <= j < n
        ensures BuildRow(j, anns[j], check).Ok?
      {
        BuildRowsAt(prefix, check, j);
      }
      assert BuildRow(n, anns[n], check) == Err(BuildRows(anns, check).error);
    }
  }

  /** Ids are 0..N-1 in traversal order, every row has the same keys, and
      both review columns start out as the record's severity. */
  lemma RowsShape(anns: seq<AnnotationFolder>, check: LinkCheck)
    requires BuildRows(anns, check).Ok?
    ensures var rows := BuildRows(anns, check).value;
      && |rows| == |anns|
      && forall i :: 0 <= i < |rows| ==>
           && Keys(rows[i]) == Columns
           && Lookup(rows[i], "action_id") == Some(Int(i))
           && Lookup(rows[i], "Your Review") == Lookup(rows[i], "Annotation")
           && anns[i].detail.Some? && anns[i].detail.value.actionStateChangeSeverity.Some?
           && Lookup(rows[i], "Annotation") == Some(Text(anns[i].detail.value.actionStateChangeSeverity.value))
  {
    BuildRowsCharacterised(anns, check);
    var rows := BuildRows(anns, check).value;
    forall i | 0 <= i < |rows|
      ensures Keys(rows[i]) == Columns
      ensures Lookup(rows[i], "action_id") == Some(Int(i))
      ensures Lookup(rows[i], "Your Review") == Lookup(rows[i], "Annotation")
      ensures anns[i].detail.Some? && anns[i].detail.value.actionStateChangeSeverity.Some?
      ensures Lookup(rows[i], "Annotation") == Some(Text(anns[i].detail.value.actionStateChangeSeverity.value))
    {
      BuildRowOkIff(i, anns[i], check);
      BuildRowKeys(i, anns[i], check);
      BuiltRowCells(i, anns[i], check);
    }
  }

  /** Every row of a successful run has the eight columns, in order. */
  lemma RowsHaveColumns(anns: seq<AnnotationFolder>, check: LinkCheck)
    requires BuildRows(anns, check).Ok?
    ensures forall i :: 0 <= i < |BuildRows(anns, check).value| ==> Keys(BuildRows(anns, check).value[i]) == Columns
  {
    BuildRowsCharacterised(anns, check);
    var rows := BuildRows(anns, check).value;
    forall i | 0 <= i < |rows|
      ensures Keys(rows[i]) == Columns
    {
      BuildRowKeys(i, anns[i], check);
    }
  }

  /** One more record: its row is appended, or its error ends the run. */
  lemma BuildRowsSnoc(prefix: seq<AnnotationFolder>, a: AnnotationFolder, check: LinkCheck)
    requires BuildRows(prefix, check).Ok?
    ensures BuildRow(|prefix|, a, check).Ok? ==>
      BuildRows(prefix + [a], check) == Ok(BuildRows(prefix, check).value + [BuildRow(|prefix|, a, check).value])
    ensures BuildRow(|prefix|, a, check).Err? ==> BuildRows(prefix + [a], check) == Err(BuildRow(|prefix|, a, check).error)
  {
    var p := prefix + [a];
    assert p[..|p| - 1] == prefix;
    assert p[|p| - 1] == a;
  }

  /** Once a prefix fails, the whole run fails with the same error. */
  lemma {:induction false} BuildRowsErrExtends(p: seq<AnnotationFolder>, q: seq<AnnotationFolder>, check: LinkCheck)
    requires BuildRows(p, check).Err?
    ensures BuildRows(p + q, check) == BuildRows(p, check)
    decreases |q|
  {
    if q == [] {
      assert p + q == p;
    } else {
      var q' := q[..|q| - 1];
      BuildRowsErrExtends(p, q', check);
      assert (p + q)[..|p + q| - 1] == p + q';
      assert BuildRows(p + q', check) .Err?;
    }
  }

  /** The annotation folders the run visits, in order: those of every
      top-level entry that passes the name filter. */
  function Accepted(listing: seq<TopEntry>): seq<AnnotationFolder>
    decreases |listing|
  {
    if listing == [] then []
    else Accepted(listing[..|listing| - 1]) + Visited(listing[|listing| - 1])
  }

  /** The annotation folders of one entry the run visits. */
  function Visited(e: TopEntry): seq<AnnotationFolder> {
    if NameCheck(e.name, false) then e.annotations else []
  }

  lemma {:induction false} AcceptedAppend(a: seq<TopEntry>, b: seq<TopEntry>)
    ensures Accepted(a + b) == Accepted(a) + Accepted(b)
    decreases |b|
  {
    if b == [] {
      assert a + b == a;
    } else {
      var b' := b[..|b| - 1];
      AcceptedAppend(a, b');
      assert (a + b)[..|a + b| - 1] == a + b';
      assert (a + b)[|a + b| - 1] == b[|b| - 1];
      assert Accepted(a + b) == Accepted(a + b') + Visited(b[|b| - 1]);
      assert Accepted(b) == Accepted(b') + Visited(b[|b| - 1]);
      AppendAssoc(Accepted(a), Accepted(b'), Visited(b[|b| - 1]));
    }
  }

  lemma AppendAssoc<T>(x: seq<T>, y: seq<T>, z: seq<T>)
    ensures (x + y) + z == x + (y + z)
  {
  }

  lemma {:induction false} AcceptedSplit(listing: seq<TopEntry>, i: nat)
    requires i <= |listing|
    ensures Accepted(listing) == Accepted(listing[..i]) + Accepted(listing[i..])
  {
    var a, b := listing[..i], listing[i..];
    assert a + b == listing;
    AcceptedAppend(a, b);
  }

  /** The number of rows of a successful run is the number of annotation
      folders under the entries that pass the name filter. */
  lemma {:induction false} AcceptedCount(listing: seq<TopEntry>)
    ensures |Accepted(listing)| == CountAccepted(listing)
    decreases |listing|
  {
    if listing != [] {
      AcceptedCount(listing[..|listing| - 1]);
    }
  }

  function CountAccepted(listing: seq<TopEntry>): nat
    decreases |listing|
  {
    if listing == [] then 0
    else
      var last := listing[|listing| - 1];
      CountAccepted(listing[..|listing| - 1]) + (if NameCheck(last.name, false) then |last.annotations| else 0)
  }
}
