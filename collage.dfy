/** The collage step (app/services/video_pipeline/steps/create_collage.py):
    which frames go into the collage, the tile grid they are laid out in,
    when the scene-based frames are replaced by evenly spaced ones, and the
    step's effect on the pipeline context. */
module Collage {
  import opened Wrappers
  import opened Strings
  import opened PipelineContext
  import opened PipelineSteps

  /** The most frames a collage holds. */
  const MaxFrames := 6

  /** Fewer scene frames than this and the evenly spaced ones are used. */
  const MinSceneFrames := 4

  const MissingVideo := "Missing or nonexistent video_path"

  function Min(a: nat, b: nat): nat {
    if a <= b then a else b
  }

  /** Columns of the grid for `n` selected frames. */
  function TileCols(n: nat): nat {
    if n > 4 then 3 else 2
  }

  /** Rows of the grid: the columns' ceiling division of `n`. */
  function TileRows(n: nat): nat {
    (n + TileCols(n) - 1) / TileCols(n)
  }

  /** The grid holds every selected frame and has no empty row: the rows
      are the least that fit. No frames make no rows. */
  lemma {:induction false} GridCovers(n: nat)
    ensures n >= 1 ==> TileCols(n) * TileRows(n) >= n > TileCols(n) * (TileRows(n) - 1)
    ensures n == 0 ==> TileRows(n) == 0
  {
    var c := TileCols(n);
    var r := TileRows(n);
    var rem := (n + c - 1) % c;
    assert n + c - 1 == c * r + rem && 0 <= rem < c;
    assert c * (r - 1) == c * r - c;
  }

  /** With the cap of six frames the grid is never larger than three by
      two. */
  lemma {:induction false} CappedGrid(n: nat)
    requires n <= MaxFrames
    ensures TileCols(n) <= 3 && TileRows(n) <= 2 && TileCols(n) * TileRows(n) <= 6
  {
    if n > 4 {
      assert TileRows(n) == (n + 2) / 3;
    } else {
      assert TileRows(n) == (n + 1) / 2;
    }
  }

  /** The frames kept: the first `maxFrames` names in sorted order. */
  function Selected(listing: seq<string>, maxFrames: nat): seq<string> {
    var all := Sort(listing);
    all[..Min(|all|, maxFrames)]
  }

  /** The frames deleted: every name after the first `maxFrames`. */
  function Extras(listing: seq<string>, maxFrames: nat): seq<string> {
    var all := Sort(listing);
    all[Min(|all|, maxFrames)..]
  }

  /** The listing splits into the kept and the deleted frames: as many kept
      as the cap allows, in order, each kept name sorting no later than any
      deleted one. */
  lemma {:induction false} SelectionSplits(listing: seq<string>, maxFrames: nat)
    ensures var kept := Selected(listing, maxFrames);
      var extras := Extras(listing, maxFrames);
      && kept + extras == Sort(listing)
      && |kept| == Min(|listing|, maxFrames)
      && multiset(kept) + multiset(extras) == multiset(listing)
      && Sorted(kept)
      && forall i, j :: 0 <= i < |kept| && 0 <= j < |extras| ==> LexLessEq(kept[i], extras[j])
  {
    var all := Sort(listing);
    var k := Min(|all|, maxFrames);
    assert all[..k] + all[k..] == all;
    forall i, j | 0 <= i < k && 0 <= j < |all| - k ensures LexLessEq(all[..k][i], all[k..][j]) {
      assert all[..k][i] == all[i] && all[k..][j] == all[k + j];
    }
  }

  /** The directory of extracted frames, as the set of files in it. */
  class FrameDirectory {
    var files: set<string>

    constructor(files: set<string>)
      ensures this.files == files
    {
      this.files := files;
    }
  }

  /** The names at indices `k` up to `i`. */
  function Removed(all: seq<string>, k: nat, i: nat): set<string>
    requires k <= i <= |all|
  {
    set j | k <= j < i :: all[j]
  }

  lemma {:induction false} RemovedStep(all: seq<string>, k: nat, i: nat)
    requires k <= i < |all|
    ensures Removed(all, k, i + 1) == Removed(all, k, i) + {all[i]}
  {
  }

  lemma {:induction false} RemovedAll(all: seq<string>, k: nat)
    requires k <= |all|
    ensures Removed(all, k, |all|) == set f | f in all[k..]
  {
    forall f | f in all[k..] ensures f in Removed(all, k, |all|) {
      var m :| 0 <= m < |all[k..]| && all[k..][m] == f;
      assert all[k + m] == f;
    }
  }

  /** `_create_collage` up to the ffmpeg call: `listing` is what the glob
      of the directory returned. The frames beyond the cap are deleted, and
      the grid is the one the tile filter is given. */
  method CreateCollage(dir: FrameDirectory, listing: seq<string>, maxFrames: nat)
      returns (selected: seq<string>, cols: nat, rows: nat)
    requires forall i :: 0 <= i < |listing| ==> listing[i] in dir.files
    modifies dir
    ensures selected == Selected(listing, maxFrames)
    ensures dir.files == old(dir.files) - (set f | f in Extras(listing, maxFrames))
    ensures cols == TileCols(|selected|) && rows == TileRows(|selected|)
  {
    var all := Sort(listing);
    var k := Min(|all|, maxFrames);
    selected := all[..k];
    ghost var before := dir.files;
    for i := k to |all|
      invariant dir.files == before - Removed(all, k, i)
    {
      dir.files := dir.files - {all[i]};
      RemovedStep(all, k, i);
    }
    RemovedAll(all, k);
    cols := if |selected| > 4 then 3 else 2;
    rows := (|selected| + cols - 1) / cols;
  }

  /** What the scene-based extraction gave: it raised, or it left `count`
      frames. */
  datatype SceneFrames = SceneFailed(message: string) | SceneFound(count: nat)

  /** Whether `process` falls back to evenly spaced frames. */
  predicate UsesEvenlySpaced(scene: SceneFrames) {
    match scene
    case SceneFailed(_) => true
    case SceneFound(count) => count < MinSceneFrames
  }

  /** The scene frames are kept exactly when extraction succeeded with at
      least four of them. */
  lemma {:induction false} FallbackThreshold(scene: SceneFrames)
    ensures !UsesEvenlySpaced(scene) <==> scene.SceneFound? && scene.count >= 4
    ensures UsesEvenlySpaced(SceneFound(3)) && !UsesEvenlySpaced(SceneFound(4))
  {
  }

  /** Where the collage of a video is written. */
  function CollagePath(collagesDir: string, videoPath: string): (r: string)
    ensures EndsWith(r, "_collage.jpg")
  {
    var name := Split(Basename(videoPath), ".")[0] + "_collage.jpg";
    var r := PathJoin(collagesDir, name);
    assert r[|r| - |name|..] == name;
    assert r[|r| - 12..] == r[|r| - |name|..][|name| - 12..];
    r
  }

  /** `process` on a context: `present` says which files exist, and
      `failure` gives, for a video path, the text of the exception raised
      while making its collage, if one is. The step never raises: a missing
      video and a failure each add one error. */
  function CollageProcess(collagesDir: string, present: string -> bool, failure: string -> Option<string>,
                          s: ContextState): StepOutcome
  {
    if s.videoPath.None? || s.videoPath.value == "" || !present(s.videoPath.value) then
      StepOutcome(WithError(s, MissingVideo), None)
    else match failure(s.videoPath.value)
      case Some(msg) => StepOutcome(WithError(s, "Error creating collage: " + msg), None)
      case None => StepOutcome(s.(collagePath := Some(CollagePath(collagesDir, s.videoPath.value))), None)
  }

  /** The collage path is set exactly when the video exists and the collage
      was made, and then nothing else changes; otherwise exactly one error
      is added and nothing else changes. */
  lemma {:induction false} CollageOutcome(collagesDir: string, present: string -> bool, failure: string -> Option<string>,
                                          s: ContextState)
    ensures var r := CollageProcess(collagesDir, present, failure, s);
      var made := s.videoPath.Some? && s.videoPath.value != "" && present(s.videoPath.value)
                  && failure(s.videoPath.value).None?;
      && r.raised.None?
      && (made ==> r.after == s.(collagePath := Some(CollagePath(collagesDir, s.videoPath.value))))
      && (!made ==> |r.after.errors| == |s.errors| + 1 && r.after == s.(errors := r.after.errors))
      && Extends(s.errors, r.after.errors)
  {
    var r := CollageProcess(collagesDir, present, failure, s);
    if r.after.errors != s.errors {
      WithErrorFails(s, r.after.errors[|s.errors|]);
    }
  }
}
