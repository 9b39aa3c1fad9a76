/** Reel detection and the choice of portrait assets in the branding
    worker. A job is a reel when its file name carries the marker the
    engine's portrait renditions end with; for a reel every asset (logo,
    intro, outro) is replaced by its `_vertical` sibling when that file
    exists. Existence is a set of paths. */
module Assets {
  import opened Text
  import opened Wrappers
  import opened PathNames
  import Clips

  /** The job is a 9:16 reel: its name carries `_V.mp4` or `_V.mov`
      anywhere, so in particular every name ending in one of them. */
  predicate IsVertical(filename: string)
    ensures EndsWith(filename, "_V.mp4") || EndsWith(filename, "_V.mov") ==> IsVertical(filename)
  {
    MarkerAtEnd(filename);
    Contains(filename, "_V.mp4") || Contains(filename, "_V.mov")
  }

  lemma MarkerAtEnd(filename: string)
    ensures EndsWith(filename, "_V.mp4") ==> Contains(filename, "_V.mp4")
    ensures EndsWith(filename, "_V.mov") ==> Contains(filename, "_V.mov")
  {
    if EndsWith(filename, "_V.mp4") { ContainsSuffix(filename, "_V.mp4"); }
    if EndsWith(filename, "_V.mov") { ContainsSuffix(filename, "_V.mov"); }
  }

  /** The sub-folder of the match tried when the requested one does not
      hold the file. */
  function FallbackSubfolder(vertical: bool): (sub: string)
    ensures sub != [] && sub[0] != '/'
  {
    if vertical then "Reel" else "Full Screen"
  }

  /** The `_vertical` sibling of an asset path: same directory, `_vertical`
      inserted between the name and its extension. */
  function VerticalCandidate(p: string): (c: string)
    ensures Contains(c, "_vertical")
    ensures EndsWith(c, SplitExt(Split(p).1).1)
  {
    var (dir, file) := Split(p);
    var (name, ext) := SplitExt(file);
    SiblingMarks(dir, name, ext);
    Join(dir, name + "_vertical" + ext)
  }

  /** The sibling carries the `_vertical` marker and keeps the extension. */
  lemma {:induction false} SiblingMarks(dir: string, name: string, ext: string)
    ensures var c := Join(dir, name + "_vertical" + ext);
      Contains(c, "_vertical") && EndsWith(c, ext)
  {
    var b := name + "_vertical" + ext;
    var c := Join(dir, b);
    assert b[|b| - |ext|..] == ext;
    EndsWithTransitive(c, b, ext);
    var k := |c| - |b| + |name|;
    assert c[|c| - |b|..] == b;
    assert c[k..k + |"_vertical"|] == b[|name|..|name| + |"_vertical"|];
    ContainsWitness(c, "_vertical", k);
  }

  /** `get_vertical_asset`: nothing for a missing or empty path, the
      sibling when it exists, the path itself otherwise. */
  function GetVerticalAsset(original: Option<string>, existing: set<string>): (r: Option<string>)
    ensures r.None? <==> original.None? || original.value == ""
    ensures r.Some? ==> r.value in existing || r == original
    ensures r.Some? && r != original ==> r.value == VerticalCandidate(original.value)
    ensures original.Some? && VerticalCandidate(original.value) in existing && original.value != "" ==>
      r == Some(VerticalCandidate(original.value))
  {
    match original
    case None => None
    case Some(p) =>
      if p == "" then None
      else
        var candidate := VerticalCandidate(p);
        if candidate in existing then Some(candidate) else original
  }

  /** The sibling is assembled from the parts `split` and `splitext` give. */
  lemma CandidateOfParts(p: string, dir: string, file: string, name: string, ext: string)
    requires Split(p) == (dir, file) && SplitExt(file) == (name, ext)
    ensures VerticalCandidate(p) == Join(dir, name + "_vertical" + ext)
  {
  }

  lemma SlashFreeFile(name: string, ext: string)
    requires PlainStem(name) && PlainExt(ext)
    ensures forall i :: 0 <= i < |name + ext| ==> (name + ext)[i] != '/'
  {
    var file := name + ext;
    forall i | 0 <= i < |file|
      ensures file[i] != '/'
    {
      if i < |name| { assert file[i] == name[i]; } else { assert file[i] == ext[i - |name|]; }
    }
  }

  lemma SiblingRelative(name: string, ext: string)
    requires PlainStem(name)
    ensures !StartsWith(name + "_vertical" + ext, "/")
  {
    var tail := name + "_vertical" + ext;
    assert tail[0] == name[0];
    Relative(tail);
  }

  /** The sibling of `dir/(name + ext)`, before flattening the
      concatenations. */
  lemma {:induction false} CandidateOfJoined(dir: string, name: string, ext: string)
    requires PlainDir(dir) && PlainStem(name) && PlainExt(ext)
    ensures VerticalCandidate(dir + "/" + (name + ext)) == dir + "/" + (name + "_vertical" + ext)
  {
    SlashFreeFile(name, ext);
    SplitOfJoined(dir, name + ext);
    SplitExtOfJoined(name, ext);
    CandidateOfParts(dir + "/" + (name + ext), dir, name + ext, name, ext);
    SiblingRelative(name, ext);
    PlainDirNoTrailingSlash(dir);
    JoinRelative(dir, name + "_vertical" + ext);
  }

  /** For `dir/name.ext` the sibling is `dir/name_vertical.ext`. */
  lemma {:induction false} VerticalCandidateOfPlainPath(dir: string, name: string, ext: string)
    requires PlainDir(dir) && PlainStem(name) && PlainExt(ext)
    ensures VerticalCandidate(dir + "/" + name + ext) == dir + "/" + name + "_vertical" + ext
  {
    CandidateOfJoined(dir, name, ext);
    ConcatAssoc(dir + "/", name, ext);
    ConcatAssoc(dir + "/", name + "_vertical", ext);
    ConcatAssoc(dir + "/", name, "_vertical");
  }

  /** `logo.png` in a plain directory becomes `logo_vertical.png` when that
      file exists and stays `logo.png` otherwise. */
  lemma VerticalAssetOfPlainPath(dir: string, name: string, ext: string, existing: set<string>)
    requires PlainDir(dir) && PlainStem(name) && PlainExt(ext)
    ensures var sibling := dir + "/" + name + "_vertical" + ext;
      GetVerticalAsset(Some(dir + "/" + name + ext), existing) ==
        if sibling in existing then Some(sibling) else Some(dir + "/" + name + ext)
  {
    VerticalCandidateOfPlainPath(dir, name, ext);
  }

  /** Every portrait rendition the engine writes (`<stem>_V.mp4`) is
      recognised as a reel by the worker. */
  lemma {:induction false} RenditionIsVertical(clipName: string)
    ensures IsVertical(Clips.VerticalName(clipName))
  {
    ContainsSuffix(Clips.VerticalName(clipName), "_V.mp4");
  }

  /** The asset a job uses: the base asset for a 16:9 job, the portrait
      choice of `get_vertical_asset` for a reel. */
  function SelectAsset(base: string, vertical: bool, existing: set<string>): (r: Option<string>)
    // only a reel with an empty base path is left without an asset
    ensures r.None? <==> vertical && base == ""
    // the asset is the base itself or, for a reel only, its existing sibling
    ensures r.Some? ==>
      r.value == base || (vertical && r.value == VerticalCandidate(base) && r.value in existing)
    // a reel takes the sibling whenever it exists
    ensures vertical && base != "" && VerticalCandidate(base) in existing ==>
      r == Some(VerticalCandidate(base))
  {
    if vertical then GetVerticalAsset(Some(base), existing) else Some(base)
  }
}
