/** The name filter applied to the top-level entries of the input folder,
    the path of the rendered overlay image, the remote folder names derived
    from that path, and the clean-up of the command-line argument. */
module Filters {
  import opened Strings

  const ContextScreen: string := "context_screen.png"
  const ActAnnots: string := "act_annots"

  /** `name_check`: in screenshot-only mode only the screenshot file name
      is kept; otherwise names mentioning an archive or macOS metadata are
      dropped. */
  function NameCheck(name: string, contextScreenOnly: bool): (keep: bool)
    ensures contextScreenOnly ==> (keep <==> name == ContextScreen)
    ensures !contextScreenOnly ==> (keep <==> !Contains(name, ".zip") && !Contains(name, "DS_Store"))
  {
    if contextScreenOnly then name == ContextScreen
    else if In(".zip", name) then false
    else if In("DS_Store", name) then false
    else true
  }

  /** The path `draw_bounding_box` writes to: every ".png" in the path, not
      only the extension, becomes "_bbox.png". */
  function OverlayPath(path: string): string {
    ReplaceAll(path, ".png", "_bbox.png")
  }

  /** The overlay path equals the screenshot path exactly when the path
      mentions no ".png" at all. */
  lemma OverlayPathUnchanged(path: string)
    ensures OverlayPath(path) == path <==> !Contains(path, ".png")
  {
    ReplaceAllIdentity(path, ".png", "_bbox.png");
  }

  /** A file name whose stem has no "." gets the suffix just before its
      ".png" extension, as "context_screen.png" does. */
  lemma OverlayOfPlainName(stem: string)
    requires '.' !in stem
    ensures OverlayPath(stem + ".png") == stem + "_bbox.png"
  {
    assert stem + ".png" == stem + ".png" + "";
    ReplaceAllAfterPlainPrefix(stem, "", ".png", "_bbox.png");
    assert stem + "_bbox.png" + "" == stem + "_bbox.png";
  }

  /** The segments, each with its ".png" occurrences rewritten. */
  function OverlaySegments(segs: seq<string>): (r: seq<string>)
    ensures |r| == |segs|
    ensures forall k :: 0 <= k < |segs| ==> r[k] == OverlayPath(segs[k])
  {
    seq(|segs|, k requires 0 <= k < |segs| => OverlayPath(segs[k]))
  }

  /** Because "/" is not part of ".png", rewriting a whole path rewrites
      each of its segments separately. */
  lemma {:induction false} OverlayPathBySegment(segs: seq<string>)
    requires segs != []
    ensures OverlayPath(JoinPath(segs, '/')) == JoinPath(OverlaySegments(segs), '/')
    decreases |segs|
  {
    if |segs| > 1 {
      OverlayPathBySegment(segs[1..]);
      ReplaceAllAround(segs[0], '/', JoinPath(segs[1..], '/'), ".png", "_bbox.png");
      assert OverlaySegments(segs)[1..] == OverlaySegments(segs[1..]);
    }
  }

  lemma {:induction false} ReplaceAllKeepsCharOut(s: string, c: char, pat: string, rep: string)
    requires pat != [] && c !in s && c !in rep
    ensures c !in ReplaceAll(s, pat, rep)
    decreases |s|
  {
    if |s| >= |pat| {
      if s[..|pat|] == pat {
        ReplaceAllKeepsCharOut(s[|pat|..], c, pat, rep);
      } else {
        ReplaceAllKeepsCharOut(s[1..], c, pat, rep);
      }
    }
  }

  /** The path of the screenshot of one annotation folder, as segments:
      `<root>/<folder>/act_annots/<annotation>/context_screen.png`. */
  function ScreenshotSegments(root: seq<string>, folder: string, annotation: string): seq<string> {
    root + [folder, ActAnnots, annotation, ContextScreen]
  }

  /** The remote folder names `upload_file_to_drive` walks for a file: the
      overlay path split on "/" without its last part (the file name). The
      relative path is taken to be the joined segments themselves. */
  function UploadFolders(segs: seq<string>): seq<string>
    requires segs != []
  {
    var parts := Split(OverlayPath(JoinPath(segs, '/')), '/');
    parts[..|parts| - 1]
  }

  /** The remote folders the overlay upload of annotation folder
      `annotation` of entry `folder` walks. */
  function OverlayFolders(root: seq<string>, folder: string, annotation: string): seq<string> {
    UploadFolders(ScreenshotSegments(root, folder, annotation))
  }

  /** For segments free of "/", the folders walked are the rewritten
      directory segments, in order. */
  lemma UploadFoldersAreRewrittenDirectories(segs: seq<string>)
    requires segs != []
    requires forall k :: 0 <= k < |segs| ==> '/' !in segs[k]
    ensures UploadFolders(segs) == OverlaySegments(segs[..|segs| - 1])
  {
    OverlayPathBySegment(segs);
    var rewritten := OverlaySegments(segs);
    forall k | 0 <= k < |rewritten| ensures '/' !in rewritten[k] {
      ReplaceAllKeepsCharOut(segs[k], '/', ".png", "_bbox.png");
    }
    SplitJoinPath(rewritten, '/');
    assert rewritten[..|segs| - 1] == OverlaySegments(segs[..|segs| - 1]);
  }

  /** The command-line argument with its trailing "\" and "/" removed. */
  function StripSeparators(arg: string): (r: string)
    ensures r <= arg
    ensures forall k :: |r| <= k < |arg| ==> arg[k] == '/' || arg[k] == '\\'
    ensures r == [] || (r[|r| - 1] != '/' && r[|r| - 1] != '\\')
  {
    RStrip(arg, {'\\', '/'})
  }
}
