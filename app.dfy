/**
 * The application core of `app_main`: the shared `image_path`, the poll loop
 * that sets it from the song MPD is playing, and `set_image`, which either
 * clears the picture or shows the cover fitted to the window. `set_image`
 * runs on the UI thread, once for every poll cycle that scheduled it and
 * once for every resize.
 */
module App {
  import opened Wrappers
  import opened Traces
  import opened FitCalculator
  import opened ArtLookup

  /** The window size `get_size` reports, in pixels. */
  datatype Window = Window(width: nat, height: nat)

  function WindowSize(win: Window): Size {
    Size(win.width as real, win.height as real)
  }

  /** What the image widget shows. */
  datatype Display = Cleared | Shown(image: Path, size: Size)

  /** What `currentsong()` reports: nothing (an empty reply), or a song by its file. */
  datatype Song = Stopped | Playing(file: Path)

  /**
   * One step of the poll loop, in the order the loop takes them;
   * `SetImagePath` records the value the shared `image_path` was given.
   */
  datatype LoopEvent =
    | QueryCurrentSong
    | SetImagePath(path: Option<Path>)
    | ScheduleSetImage
    | WaitIdle

  /**
   * What one poll cycle sees of the outside world: the reply of
   * `currentsong()` and the filesystem's directory listings at that moment.
   * Each cycle lists the song's directory afresh, so a cover added between
   * cycles is found by the next cycle.
   */
  datatype Observation = Observation(current: Song, listDir: Path -> seq<string>)

  /** The events of the poll cycle that sees `obs`. */
  function CycleEvents(library: Path, obs: Observation): seq<LoopEvent> {
    [QueryCurrentSong, SetImagePath(ArtFor(obs.listDir, library, obs.current)), ScheduleSetImage, WaitIdle]
  }

  /** The events of consecutive poll cycles, one per reply of `currentsong()`. */
  function Cycles(library: Path, observed: seq<Observation>): seq<LoopEvent> {
    if |observed| == 0 then []
    else Cycles(library, observed[..|observed| - 1]) + CycleEvents(library, observed[|observed| - 1])
  }

  /**
   * The `image_path` a poll cycle sets: none when nothing plays, otherwise
   * the cover lookup for the playing song's file.
   */
  function ArtFor(listDir: Path -> seq<string>, library: Path, current: Song): (r: Option<Path>)
    ensures current.Stopped? ==> r.None?
    ensures current.Playing? ==> r == FindSongArt(listDir, library, current.file)
  {
    match current
    case Stopped => None
    case Playing(file) => FindSongArt(listDir, library, file)
  }

  /**
   * What `set_image` shows: nothing when there is no `image_path`, otherwise
   * that image, decoded by `decode`, fitted to the window: inside it, with
   * the picture's pixel ratio, and filling the window on one side.
   */
  function SetImage(imagePath: Option<Path>, decode: Path -> Decoded, win: Window): (d: Display)
    ensures d.Cleared? <==> imagePath.None?
    ensures d.Shown? ==> d.image == imagePath.value
    ensures d.Shown? ==>
      0.0 <= d.size.width <= win.width as real && 0.0 <= d.size.height <= win.height as real
    ensures d.Shown? ==>
      d.size.width * decode(d.image).height as real == d.size.height * decode(d.image).width as real
    ensures d.Shown? ==> d.size.width == win.width as real || d.size.height == win.height as real
  {
    match imagePath
    case None => Cleared
    case Some(path) =>
      var pixels := decode(path);
      FitKeepsPixelRatio(pixels, WindowSize(win));
      Shown(path, Fit(Aspect(pixels), WindowSize(win)))
  }

  /**
   * The state `app_main` shares between the poll thread and the UI thread,
   * with the trace of what the poll loop did.
   */
  class ArtBox {
    const library: Path
    var imagePath: Option<Path>
    var events: seq<LoopEvent>
    var display: Display

    constructor (library: Path)
      ensures this.library == library
      ensures imagePath == None && events == [] && display == Cleared
    {
      this.library := library;
      imagePath := None;
      events := [];
      display := Cleared;
    }

    /**
     * One cycle of `mpd_loop`: read the current song, set `image_path` from
     * a fresh listing of the song's directory, schedule `set_image` once,
     * then wait in `idle()`.
     */
    method PollCycle(current: Song, listDir: Path -> seq<string>)
      modifies this`imagePath, this`events
      ensures imagePath == ArtFor(listDir, library, current)
      ensures events == old(events) + CycleEvents(library, Observation(current, listDir))
    {
      events := events + [QueryCurrentSong];
      if current.Stopped? {
        imagePath := None;
      } else {
        imagePath := FindSongArt(listDir, library, current.file);
      }
      events := events + [SetImagePath(imagePath)];
      events := events + [ScheduleSetImage];
      events := events + [WaitIdle];
    }

    /**
     * `mpd_loop` run for as many cycles as `observed` has entries, each
     * cycle seeing the next reply of `currentsong()` and the directory
     * listings as they are at that cycle.
     */
    method Poll(observed: seq<Observation>)
      modifies this`imagePath, this`events
      ensures events == old(events) + Cycles(library, observed)
      ensures |observed| > 0 ==> var last := observed[|observed| - 1];
        imagePath == ArtFor(last.listDir, library, last.current)
      ensures |observed| == 0 ==> imagePath == old(imagePath)
    {
      var i := 0;
      while i < |observed|
        invariant 0 <= i <= |observed|
        invariant events == old(events) + Cycles(library, observed[..i])
        invariant i > 0 ==> imagePath == ArtFor(observed[i - 1].listDir, library, observed[i - 1].current)
        invariant i == 0 ==> imagePath == old(imagePath)
      {
        PollCycle(observed[i].current, observed[i].listDir);
        assert observed[..i + 1][..i] == observed[..i];
        i := i + 1;
      }
      assert observed[..|observed|] == observed;
    }

    /** `set_image` as the UI thread runs it, reading `image_path` as it is now. */
    method RunSetImage(decode: Path -> Decoded, win: Window)
      modifies this`display
      ensures display == SetImage(imagePath, decode, win)
    {
      display := SetImage(imagePath, decode, win);
    }
  }

  /**
   * The poll cycles are four steps each, and cycle `i` reads the song, sets
   * `image_path` to the lookup for `observed[i]` (its song, in the listing
   * of that cycle), schedules exactly one `set_image` and then waits in
   * `idle()`: the path is set before `set_image` is scheduled.
   */
  lemma {:induction false} CyclesShape(library: Path, observed: seq<Observation>, i: nat)
    requires i < |observed|
    ensures |Cycles(library, observed)| == 4 * |observed|
    ensures Cycles(library, observed)[4 * i .. 4 * i + 4]
         == [QueryCurrentSong, SetImagePath(ArtFor(observed[i].listDir, library, observed[i].current)),
             ScheduleSetImage, WaitIdle]
  {
    var front := observed[..|observed| - 1];
    if i < |observed| - 1 {
      CyclesShape(library, front, i);
    } else {
      CyclesLength(library, front);
    }
  }

  lemma {:induction false} CyclesLength(library: Path, observed: seq<Observation>)
    ensures |Cycles(library, observed)| == 4 * |observed|
  {
    if |observed| > 0 {
      CyclesLength(library, observed[..|observed| - 1]);
    }
  }

  /**
   * One poll cycle per observation: the song is read, `set_image` is
   * scheduled and `idle()` is waited in exactly once per cycle.
   */
  lemma {:induction false} CyclesSchedule(library: Path, observed: seq<Observation>)
    ensures Count(Cycles(library, observed), ScheduleSetImage) == |observed|
    ensures Count(Cycles(library, observed), WaitIdle) == |observed|
    ensures Count(Cycles(library, observed), QueryCurrentSong) == |observed|
  {
    if |observed| > 0 {
      var front, cycle := observed[..|observed| - 1], CycleEvents(library, observed[|observed| - 1]);
      CyclesSchedule(library, front);
      CountAppend(Cycles(library, front), cycle, ScheduleSetImage);
      CountAppend(Cycles(library, front), cycle, WaitIdle);
      CountAppend(Cycles(library, front), cycle, QueryCurrentSong);
      CycleCounts(cycle, ScheduleSetImage);
      CycleCounts(cycle, WaitIdle);
      CycleCounts(cycle, QueryCurrentSong);
    }
  }

  /** A cycle holds each of its steps other than `SetImagePath` exactly once. */
  lemma CycleCounts(cycle: seq<LoopEvent>, e: LoopEvent)
    requires |cycle| == 4 && cycle[0] == QueryCurrentSong && cycle[1].SetImagePath?
    requires cycle[2] == ScheduleSetImage && cycle[3] == WaitIdle && !e.SetImagePath?
    ensures Count(cycle, e) == 1
  {
    var c1, c2, c3 := cycle[1..], cycle[2..], cycle[3..];
    assert c3[1..] == [] && c2[1..] == c3 && c1[1..] == c2;
    assert Count(c3, e) == (if e == WaitIdle then 1 else 0);
    assert Count(c2, e) == (if e == ScheduleSetImage || e == WaitIdle then 1 else 0);
    assert Count(c1, e) == (if e == QueryCurrentSong then 0 else 1);
  }

  /**
   * A resize refits the picture `image_path` already names, with no new
   * lookup: a 2:1 cover shown at 400x400 and then at 100x100.
   */
  lemma RefitOnResize(decode: Path -> Decoded, path: Path)
    requires decode(path) == Pixels(2, 1)
    ensures SetImage(Some(path), decode, Window(400, 400)) == Shown(path, Size(400.0, 200.0))
    ensures SetImage(Some(path), decode, Window(100, 100)) == Shown(path, Size(100.0, 50.0))
  {
  }
}
