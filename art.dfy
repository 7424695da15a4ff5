/**
 * Cover-art lookup by the library convention: the cover of a song is a file
 * named exactly `cover.jpg` or `cover.png` in the directory that holds the
 * song, and the first such entry in directory-listing order wins.
 */
module ArtLookup {
  import opened Wrappers

  /** A filesystem path, as its sequence of component names. */
  type Path = seq<string>

  /** The directory holding a path: the path without its last component. */
  function Parent(p: Path): (d: Path)
    ensures |p| > 0 ==> p == d + [p[|p| - 1]]
    ensures |p| == 0 ==> d == p
  {
    if |p| == 0 then p else p[..|p| - 1]
  }

  /** The directory that `library.joinpath(songPath).parent` names. */
  function SongDir(library: Path, songPath: Path): (d: Path)
    ensures |songPath| > 0 ==> d == library + songPath[..|songPath| - 1]
    ensures |songPath| == 0 ==> d == Parent(library)
  {
    assert |songPath| > 0 ==> (library + songPath)[..|library + songPath| - 1] == library + songPath[..|songPath| - 1];
    Parent(library + songPath)
  }

  /**
   * The two cover names, compared exactly (no case folding): `cover.`
   * followed by the extension `jpg` or `png`, and nothing else.
   */
  predicate IsCoverName(name: string): (b: bool)
    ensures b <==> |name| == 9 && name[..6] == "cover." && (name[6..] == "jpg" || name[6..] == "png")
  {
    name == "cover.jpg" || name == "cover.png"
  }

  /** The position of the first cover name in a directory listing, if any. */
  function FirstCover(names: seq<string>): (r: Option<nat>)
    ensures r.Some? ==> r.value < |names| && IsCoverName(names[r.value])
    ensures r.Some? ==> forall j :: 0 <= j < r.value ==> !IsCoverName(names[j])
    ensures r.None? <==> forall j :: 0 <= j < |names| ==> !IsCoverName(names[j])
  {
    if |names| == 0 then None
    else if IsCoverName(names[0]) then Some(0)
    else
      match FirstCover(names[1..])
      case None => None
      case Some(i) => Some(i + 1)
  }

  /**
   * The cover of the song at `songPath` under `library`, where `listDir`
   * gives the names a directory lists, in listing order.
   */
  function FindSongArt(listDir: Path -> seq<string>, library: Path, songPath: Path): (r: Option<Path>)
    ensures r.None? <==> forall j :: 0 <= j < |listDir(SongDir(library, songPath))| ==>
                           !IsCoverName(listDir(SongDir(library, songPath))[j])
    ensures r.Some? ==> exists i: nat :: IsFirstCover(listDir(SongDir(library, songPath)), i)
                          && r.value == SongDir(library, songPath) + [listDir(SongDir(library, songPath))[i]]
  {
    var dir := SongDir(library, songPath);
    var names := listDir(dir);
    match FirstCover(names)
    case None => None
    case Some(i) =>
      assert IsFirstCover(names, i);
      Some(dir + [names[i]])
  }

  /** Entry `i` is a cover name and no earlier entry is. */
  predicate IsFirstCover(names: seq<string>, i: nat) {
    i < |names| && IsCoverName(names[i]) && forall j :: 0 <= j < i ==> !IsCoverName(names[j])
  }

  /** The first cover in a listing is unique: the lookup result is determined. */
  lemma FirstCoverUnique(names: seq<string>, i: nat, k: nat)
    requires IsFirstCover(names, i) && IsFirstCover(names, k)
    ensures i == k
  {
  }

  /** Entries after the first cover do not change the result. */
  lemma {:induction false} FirstCoverIgnoresLater(names: seq<string>, more: seq<string>)
    requires FirstCover(names).Some?
    ensures FirstCover(names + more) == FirstCover(names)
  {
    if !IsCoverName(names[0]) {
      assert (names + more)[1..] == names[1..] + more;
      FirstCoverIgnoresLater(names[1..], more);
    }
  }
}
