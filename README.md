# mpd-art-box, modelled in Dafny

`mpd_art_box.py` is a small always-on window that shows the cover art of the
song MPD (the Music Player Daemon) is playing. A background thread keeps one
connection to MPD. It reads the current song and looks up the song's cover
file next to it in the music library. It stores the result in the shared
`image_path`, schedules `set_image` on the GTK main loop, and blocks in
`idle()` until MPD reports a change. `set_image` clears the picture, or loads
it and scales it to the largest size that keeps its aspect ratio and fits the
window; it also runs on every window resize.

This project models the four pieces of logic in that script:

- `fit.dfy`, module `FitCalculator`: the aspect-fit arithmetic of `set_image`,
  on exact `real` numbers.
- `art.dfy`, module `ArtLookup`: `_find_song_art`, the first entry named
  `cover.jpg` or `cover.png` in the song's directory, in listing order.
- `session.dfy`, module `MpdSession`: `_mpd_client`, the connect loop with
  three attempts and a one-second sleep after a refusal, and the
  `try`/`finally` that disconnects a yielded client. MPD is replaced by a
  script of connect outcomes and the `with` body by whether it returns or
  raises. The scope records a trace of attempts, sleeps, the yield and the
  disconnect. `MpdClient` is the loop itself; `Session` states the same
  behaviour as a whole; the lemmas count the events.
- `app.dfy`, module `App`: the state `app_main` shares between its threads
  (class `ArtBox`, with `image_path`, the widget's display and a trace of the
  poll loop's steps), one cycle of `mpd_loop`, a bounded run of cycles, and
  `set_image`'s clear-or-show choice.
- `traces.dfy` and `wrappers.dfy`: counting in traces, and `Option`.

Inputs that come from outside become parameters. The directory listing is a
function from a directory to its entry names in listing order. Each poll
cycle gets its own listing, as the program lists the directory again in
every cycle. The picture
loader is a function from a path to a positive pixel size. The reply of
`currentsong()` is a `Song`. Each connect attempt's result is an entry of a
script.

## Model

| member | source | states |
|---|---|---|
| FitCalculator.Aspect | mpd_art_box.py:60 | the aspect ratio of a decoded picture is positive and times its pixel height gives its pixel width |
| FitCalculator.Fit | mpd_art_box.py:62-73 | for a positive aspect and a window with non-negative sides, the fitted rectangle has non-negative sides no larger than the window's, has exactly the picture's aspect (width == aspect * height), and fills the window in width or in height; both rescale divisions divide by a side that exceeds a window side, so by a positive number (checked as well-formedness of the body) |
| FitCalculator.FitKeepsPixelRatio | mpd_art_box.py:59-73 | with the aspect taken from the pixel size, width * pixel height == height * pixel width |
| FitCalculator.PortraitFitKeepsHeight | mpd_art_box.py:62-67 | a portrait picture (aspect < 1) whose full-height rectangle fits keeps the full window height |
| FitCalculator.LandscapeFitKeepsWidth | mpd_art_box.py:68-73 | a square or landscape picture whose full-width rectangle fits keeps the full window width |
| FitCalculator.FitOfEmptyWindow | mpd_art_box.py:62-73 | a window with a zero side yields a 0 x 0 rectangle, not an error |
| FitCalculator.FitIsLargest | mpd_art_box.py:62-73 | every rectangle with the picture's aspect that fits the window is no wider and no taller than the fitted one |
| FitCalculator.FitExamples | mpd_art_box.py:62-73 | 1:1 in 500x500 gives 500x500; 16:9 in 500x500 gives 500x281.25; 16:9 in 800x300 gives 1600/3 x 300 |
| ArtLookup.Parent | mpd_art_box.py:38 | the parent of a non-empty path is the path without its last component |
| ArtLookup.SongDir | mpd_art_box.py:38 | the directory listed for a song, `library.joinpath(song_path).parent`, is the library joined with the song path minus its file name; for an empty song path it is the parent of the library |
| ArtLookup.IsCoverName | mpd_art_box.py:39 | a name is a cover name exactly when it is `cover.` followed by `jpg` or `png`, with nothing else and no case folding |
| ArtLookup.FirstCover | mpd_art_box.py:38-40 | the result indexes an entry named exactly `cover.jpg` or `cover.png` with no such entry before it; it is None exactly when no entry has either name |
| ArtLookup.FindSongArt | mpd_art_box.py:37-40 | the result is None exactly when the listing of the song's parent directory has no cover name; otherwise it is that directory joined with the first cover name in listing order |
| ArtLookup.FirstCoverUnique | mpd_art_box.py:38-40 | the first cover entry of a listing is unique, so the lookup's answer is determined |
| ArtLookup.FirstCoverIgnoresLater | mpd_art_box.py:38-40 | once a cover has been found, entries listed after it do not change the result (the early return) |
| MpdSession.SettledFrom | mpd_art_box.py:21-30 | the attempt that ends the loop is the first one, from the given one on, that is not refused, or none of the three |
| MpdSession.Backoff | mpd_art_box.py:21-30 | `n` retried refusals are the attempts 1 to `n`, each followed directly by one sleep |
| MpdSession.Session | mpd_art_box.py:18-34 | the whole run of the scope: ConnectionRefusedError leaves it exactly when all three attempts are refused, and another connect error exactly when an attempt fails that way after only refusals; otherwise the client is yielded and then disconnected |
| MpdSession.MpdClient | mpd_art_box.py:18-34 | the connect loop and the try/finally produce exactly the trace and the outcome that `Session` describes: attempts up to the first non-refused one, a sleep after each refused attempt but the last, the re-raised refusal or the other connect error, or the yield followed by one disconnect and the body's outcome |
| MpdSession.BackoffCounts | mpd_art_box.py:26-30 | `n` refused attempts that are retried hold `n` attempts and `n` sleeps and no yield or disconnect |
| MpdSession.SessionCounts | mpd_art_box.py:20-34 | between 1 and 3 attempts are made; the sleeps number one fewer than the attempts; at most one client is yielded; disconnects equal yields, whether the body returns or raises; a yield is followed directly by the disconnect, which ends the trace |
| MpdSession.SessionOutcome | mpd_art_box.py:21-34 | a client is yielded exactly when some attempt among the three connects after only refusals; then the body's return or raise decides the outcome; otherwise a connect error leaves the scope |
| MpdSession.RetryThenConnect | mpd_art_box.py:20-32 | refused, refused, connected gives attempt, sleep, attempt, sleep, attempt, yield, disconnect: two sleeps and one yielded client |
| MpdSession.AllRefused | mpd_art_box.py:20-30 | three refusals give three attempts and two sleeps, then ConnectionRefusedError is re-raised, with nothing yielded and no disconnect |
| MpdSession.OtherErrorPropagates | mpd_art_box.py:21-28 | a connect error that is not a refusal leaves the scope at once: no sleep after it, no further attempt, nothing yielded; on the first attempt, no sleep at all |
| App.ArtFor | mpd_art_box.py:87-91 | the `image_path` a cycle sets is None for an empty `currentsong()`, otherwise the cover lookup of the song's file |
| App.SetImage | mpd_art_box.py:57-79 | `set_image` clears the picture exactly when `image_path` is None; otherwise it shows that path fitted inside the window, with the picture's pixel ratio, filling the window on one side |
| App.ArtBox.constructor | mpd_art_box.py:50-52 | the app starts with no `image_path` and a cleared picture |
| App.ArtBox.PollCycle | mpd_art_box.py:86-93 | one cycle, given the reply of `currentsong()` and the directory listing at that moment, sets `image_path` to None for an empty reply, otherwise to the cover lookup of the song's file in that listing, and records reading the song, setting `image_path` to that value, scheduling `set_image` once and waiting in `idle()`, in that order (the body records the field's value at that step) |
| App.ArtBox.Poll | mpd_art_box.py:86-93 | a run of cycles, one per observation (a reply of `currentsong()` with the listing of that cycle), records each cycle's four steps with the `image_path` that cycle set, and leaves `image_path` as the last cycle's lookup |
| App.ArtBox.RunSetImage | mpd_art_box.py:54-80 | running `set_image` sets the display from the `image_path` current at that moment and the window size |
| App.CyclesShape | mpd_art_box.py:86-93 | the trace of the cycles has four steps per observation, and steps 4i to 4i+3 are read song, set `image_path` to the lookup of observation i's song in observation i's listing, schedule `set_image`, wait in `idle()` |
| App.CyclesSchedule | mpd_art_box.py:86-93 | the cycles for `n` observations read the song `n` times, schedule `set_image` exactly `n` times and wait in `idle()` `n` times |
| App.RefitOnResize | mpd_art_box.py:97-98 | a resize reruns `set_image` on the same `image_path`: a 2:1 cover fits 400x400 as 400x200 and then 100x100 as 100x50 |

## Left out

- GTK: the window, the image widget, the background colour and the signal
  wiring are left out. The widget's content is the `display` field.
- Threads and `GLib.idle_add`: scheduling is an event in the trace. In the
  program, `set_image` reads the shared `image_path` when the UI thread runs
  it, not when it was scheduled. A later poll cycle can therefore overwrite
  `image_path` before an earlier scheduled call runs. The model does not
  interleave the two threads; `RunSetImage` reads `image_path` as it is at
  the call.
- `set_image` returning `False` tells GLib to run the idle callback once.
  The model runs it once per call and has no callback queue.
- Picture decoding, `scale_simple` and bilinear resampling: the loader is a
  parameter that always gives a positive pixel size. A file that fails to
  load raises in the program and is not modelled. `scale_simple` truncates
  the fitted sizes to whole pixels; the model keeps the exact `real` sizes.
- Floating-point rounding in the fit arithmetic: `real` is exact.
- Errors from `iterdir()`, such as a directory that has vanished: the program
  does not catch them, and the model's listing function is total.
- `ArtFor`: a non-empty `currentsong()` reply without a `file` key, which would
  raise `KeyError`, is not modelled; MPD always sends `file`.
- Paths are sequences of component names. `joinpath` is concatenation and
  `parent` drops the last component. Absolute song paths and `..` are not
  resolved.
- `if image_path:` is modelled as "is not None". A `pathlib.Path` is always
  truthy, so this is the same test.
- The real MPD protocol behind `connect`, `currentsong` and `idle`: these are
  script entries and trace events. The one-second length of `time.sleep(1)`
  is left out; only the number of sleeps is kept. The fresh `MPDClient`
  object built for each attempt is left out.
- The endless `while True` of `mpd_loop` is modelled as a bounded run of
  cycles. Its only way out is an exception, which the `with` scope turns into
  one disconnect (`MpdSession` with body `Raises`).
- `client.disconnect()` in the `finally` is taken never to raise. In the
  program an exception from it would replace the body's return or raise, so
  `MpdSession.Session`, `MpdSession.MpdClient` and
  `MpdSession.SessionOutcome` describe the outcome only for a disconnect that
  succeeds.
- `main` and its command-line and config handling.
