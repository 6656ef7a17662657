/**
 * The command functions of commands.py. Each one wraps a call into a library
 * (screen grabbing, process spawning, the web browser, the OS shell); the call
 * is recorded as an `Effect` and the library's answer, where it matters, is a
 * parameter. Each returns the status string the source returns.
 */
module Commands {
  import opened Wrappers
  import opened Text

  /** An external call attempted by a command function. */
  datatype Effect =
    | GrabScreen                 // grab the display and write it to an image file
    | OpenUrl(url: string)       // open a page in the default browser
    | Spawn(path: string)        // start a process
    | RunSystem(command: string) // run a shell command

  /** What grabbing and saving the screen did: the timestamp used in the file name, or the exception text. */
  datatype GrabOutcome = Saved(stamp: string) | GrabFailed(error: string)

  /** Whether starting the process worked, or the exception text. */
  datatype SpawnOutcome = Spawned | SpawnFailed(error: string)

  /** The effects of a call that always returns a status string. */
  datatype Call = Call(effects: seq<Effect>, status: string)

  /** The effects of a call that returns a status string or None. */
  datatype Reply = Reply(effects: seq<Effect>, status: Option<string>)

  const ScreenshotPrefix := "Screenshot saved as "
  const CaptureErrorPrefix := "Error capturing screen: "
  const OpenedPrefix := "Opened application: "
  const OpenErrorPrefix := "An error occurred while trying to open "
  const GoogleUrl := "https://www.google.com"
  const YouTubeUrl := "https://www.youtube.com"
  const GoogleStatus := "Opened Google"
  const YouTubeStatus := "Opened YouTube"
  const ShutdownCommandLine := "shutdown /s /t 1"
  const ShutdownStatus := "Shutdown command issued"

  /** Where a screenshot taken at `stamp` (formatted as YYYYMMDD_HHMMSS) is written. */
  function ScreenshotPath(stamp: string): (p: string)
    ensures IsPrefix("C:/screencapture/screencapture_", p)
    ensures |p| == |"C:/screencapture/screencapture_"| + |stamp| + |".png"|
    ensures p[|p| - 4..] == ".png"
    ensures p[|"C:/screencapture/screencapture_"|..|p| - 4] == stamp
  {
    "C:/screencapture/screencapture_" + stamp + ".png"
  }

  /**
   * capture_screen: one grab is attempted and the call never fails; the status
   * tells success from failure by its prefix.
   */
  function CaptureScreen(grab: GrabOutcome): (r: Call)
    ensures r.effects == [GrabScreen]
    ensures IsPrefix(ScreenshotPrefix, r.status) <==> grab.Saved?
    ensures IsPrefix(CaptureErrorPrefix, r.status) <==> grab.GrabFailed?
    ensures grab.Saved? ==> r.status[|ScreenshotPrefix|..] == ScreenshotPath(grab.stamp)
    ensures grab.GrabFailed? ==> r.status[|CaptureErrorPrefix|..] == grab.error
  {
    match grab
    case Saved(stamp) =>
      var status := ScreenshotPrefix + ScreenshotPath(stamp);
      PrefixesExclude(ScreenshotPrefix, CaptureErrorPrefix, status);
      Call([GrabScreen], status)
    case GrabFailed(e) =>
      var status := CaptureErrorPrefix + e;
      PrefixesExclude(CaptureErrorPrefix, ScreenshotPrefix, status);
      Call([GrabScreen], status)
  }

  /**
   * open_app: one spawn of `path` is attempted and the call never fails; the
   * status is the success message exactly when the spawn worked.
   */
  function OpenApp(path: string, spawn: SpawnOutcome): (r: Call)
    ensures r.effects == [Spawn(path)]
    ensures r.status == OpenedPrefix + path <==> spawn.Spawned?
    ensures IsPrefix(OpenErrorPrefix + path, r.status) <==> spawn.SpawnFailed?
    ensures spawn.SpawnFailed? ==> r.status[|OpenErrorPrefix + path|..] == ":" + spawn.error
  {
    match spawn
    case Spawned =>
      var status := OpenedPrefix + path;
      PrefixesExclude(OpenedPrefix + path, OpenErrorPrefix + path, status);
      Call([Spawn(path)], status)
    case SpawnFailed(e) =>
      var status := OpenErrorPrefix + path + ":" + e;
      assert status[0] == 'A';
      Call([Spawn(path)], status)
  }

  /** shutdown: always asks the OS to shut down and returns the fixed confirmation. */
  function Shutdown(): (r: Call)
    ensures r.effects == [RunSystem(ShutdownCommandLine)]
    ensures r.status == ShutdownStatus
  {
    Call([RunSystem(ShutdownCommandLine)], ShutdownStatus)
  }

  /**
   * handle_web_command: "browser" wins over "youtube"; at most one page is
   * opened, and a status is returned exactly when one is; the status is never
   * empty, so it is truthy in the caller.
   */
  function HandleWebCommand(command: string): (r: Reply)
    ensures |r.effects| <= 1
    ensures r.status.None? <==> r.effects == []
    ensures r.status.None? <==> !Contains(command, "browser") && !Contains(command, "youtube")
    ensures r.status.Some? ==> r.status.value != ""
    ensures Contains(command, "browser") ==> r.effects == [OpenUrl(GoogleUrl)] && r.status == Some(GoogleStatus)
    ensures !Contains(command, "browser") && Contains(command, "youtube") ==>
              r.effects == [OpenUrl(YouTubeUrl)] && r.status == Some(YouTubeStatus)
  {
    if Contains(command, "browser") then
      Reply([OpenUrl(GoogleUrl)], Some(GoogleStatus))
    else if Contains(command, "youtube") then
      Reply([OpenUrl(YouTubeUrl)], Some(YouTubeStatus))
    else
      Reply([], None)
  }

  /** The statuses of capture_screen, open_app and shutdown never coincide, so a status names its command. */
  lemma StatusesAreDistinct(grab: GrabOutcome, path: string, spawn: SpawnOutcome)
    ensures CaptureScreen(grab).status != OpenApp(path, spawn).status
    ensures CaptureScreen(grab).status != ShutdownStatus
    ensures OpenApp(path, spawn).status != ShutdownStatus
  {
    var c, o := CaptureScreen(grab).status, OpenApp(path, spawn).status;
    if grab.Saved? {
      assert IsPrefix(ScreenshotPrefix, c);
      assert c[0] == 'S' && c[1] == 'c';
    } else {
      assert IsPrefix(CaptureErrorPrefix, c);
      assert c[0] == 'E';
    }
    if spawn.Spawned? {
      assert o[0] == 'O';
    } else {
      assert IsPrefix(OpenErrorPrefix + path, o);
      assert o[0] == 'A';
    }
    assert ShutdownStatus[0] == 'S' && ShutdownStatus[1] == 'h';
  }

  /** A status of handle_web_command is never one of the other three commands' statuses. */
  lemma WebStatusesAreDistinct(grab: GrabOutcome, path: string, spawn: SpawnOutcome, command: string)
    ensures HandleWebCommand(command).status != Some(CaptureScreen(grab).status)
    ensures HandleWebCommand(command).status != Some(OpenApp(path, spawn).status)
    ensures HandleWebCommand(command).status != Some(ShutdownStatus)
  {
    var c, o := CaptureScreen(grab).status, OpenApp(path, spawn).status;
    assert c[0] == 'S' || c[0] == 'E';
    assert o[0] == 'O' || o[0] == 'A';
    if spawn.Spawned? {
      assert o[..|OpenedPrefix|] == OpenedPrefix;
      assert o[..|OpenedPrefix|][7] == 'a';
      assert GoogleStatus[7] == 'G' && YouTubeStatus[7] == 'Y';
    }
  }
}
