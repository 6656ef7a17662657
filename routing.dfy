/**
 * The decisions of VoiceAssistantApp in BitRate.py, apart from the state they
 * update: the keyword routing of process_command, the wake-word test of
 * listen_for_wake_word, the capture of listen_for_command and the choice one
 * listen_loop iteration makes about what to enqueue.
 */
module Routing {
  import opened Wrappers
  import opened Text
  import opened Commands

  /** The answers of the outside world to the calls one command may make. */
  datatype World = World(grab: GrabOutcome, spawn: SpawnOutcome)

  const DefaultWakeWord := "jarvis"
  /** The application name the app-launch branch looks for, exactly as the source spells it. */
  const AppName := "App Name"
  const AppPath := "Path to your desired app"

  /** The first test of the chain; Python's precedence reads it as (capture and screen) or screenshot. */
  predicate IsScreenshotCommand(command: string) {
    (Contains(command, "capture") && Contains(command, "screen")) || Contains(command, "screenshot")
  }

  /**
   * process_command: an ordered, first-match-wins chain. At most one external
   * call is made, and a status is produced exactly when one is; when nothing
   * matches, nothing happens and no status is produced.
   */
  function Route(command: string, world: World): (r: Reply)
    ensures |r.effects| <= 1
    ensures r.status.Some? <==> |r.effects| == 1
    // screenshot outranks every other rule
    ensures r.effects == [GrabScreen] <==> IsScreenshotCommand(command)
    ensures IsScreenshotCommand(command) ==> r.status == Some(CaptureScreen(world.grab).status)
    // "open" shadows "shutdown"
    ensures !IsScreenshotCommand(command) && Contains(command, "open") ==>
              RunSystem(ShutdownCommandLine) !in r.effects
    ensures r.effects == [RunSystem(ShutdownCommandLine)] <==>
              !IsScreenshotCommand(command) && !Contains(command, "open") && Contains(command, "shutdown")
    ensures r.effects == [RunSystem(ShutdownCommandLine)] ==> r.status == Some(ShutdownStatus)
    // web pages are opened through handle_web_command
    ensures (|r.effects| == 1 && r.effects[0].OpenUrl?) <==>
              !IsScreenshotCommand(command) && Contains(command, "open") &&
              (Contains(command, "browser") || Contains(command, "youtube"))
    ensures |r.effects| == 1 && r.effects[0].OpenUrl? ==> r == HandleWebCommand(command)
    // the application is launched only through the literal, case-sensitive name
    ensures r.effects == [Spawn(AppPath)] <==>
              !IsScreenshotCommand(command) && Contains(command, "open") &&
              HandleWebCommand(command).status.None? && Contains(command, AppName)
    ensures r.effects == [Spawn(AppPath)] ==> r.status == Some(OpenApp(AppPath, world.spawn).status)
    ensures |r.effects| == 1 ==> r.effects[0] in {GrabScreen, OpenUrl(GoogleUrl), OpenUrl(YouTubeUrl),
                                                  Spawn(AppPath), RunSystem(ShutdownCommandLine)}
  {
    if IsScreenshotCommand(command) then
      var call := CaptureScreen(world.grab);
      Reply(call.effects, Some(call.status))
    else if Contains(command, "open") then
      var web := HandleWebCommand(command);
      if web.status.Some? then
        web
      else if Contains(command, AppName) then
        var call := OpenApp(AppPath, world.spawn);
        assert web.effects + call.effects == [Spawn(AppPath)];
        Reply(web.effects + call.effects, Some(call.status))
      else
        Reply(web.effects, None)
    else if Contains(command, "shutdown") then
      var call := Shutdown();
      Reply(call.effects, Some(call.status))
    else
      Reply([], None)
  }

  /** A lower-cased command can never reach the application launch. */
  lemma LowerCaseNeverLaunches(command: string, world: World)
    requires IsLowerCase(command)
    ensures forall e :: e in Route(command, world).effects ==> !e.Spawn?
  {
    LowerCaseExcludes(command, AppName, 0);
  }

  /**
   * listen_for_wake_word: true exactly when a transcript was recognised and
   * the wake word occurs somewhere in its lower-cased form.
   */
  function DetectWakeWord(heard: Option<string>, wakeWord: string): (r: bool)
    ensures r <==> heard.Some? && exists i: nat :: OccursAt(Lower(heard.value), wakeWord, i)
  {
    if heard.Some? then
      var transcript := Lower(heard.value);
      ContainsIffOccurs(transcript, wakeWord);
      Contains(transcript, wakeWord)
    else
      false
  }

  /** Wake-word detection does not depend on the case of the transcript. */
  lemma WakeWordIgnoresCase(transcript: string, wakeWord: string)
    ensures DetectWakeWord(Some(transcript), wakeWord) == DetectWakeWord(Some(Lower(transcript)), wakeWord)
  {
    LowerFixesLowerCase(Lower(transcript));
  }

  /**
   * listen_for_command: the lower-cased transcript, or None when it was not
   * understood; all later matching is therefore on lower-case text.
   */
  function CaptureCommand(heard: Option<string>): (r: Option<string>)
    ensures r.Some? <==> heard.Some?
    ensures r.Some? ==> IsLowerCase(r.value) && |r.value| == |heard.value|
    ensures r.Some? ==> r.value == Lower(heard.value)
  {
    match heard
    case Some(transcript) => Some(Lower(transcript))
    case None => None
  }

  /**
   * One listen_loop iteration: the command it enqueues, if any. A command is
   * enqueued exactly when the wake word was heard and the command transcript
   * was recognised and is not empty.
   */
  function CycleCommand(wakeHeard: Option<string>, commandHeard: Option<string>, wakeWord: string): (r: Option<string>)
    ensures r.Some? <==> DetectWakeWord(wakeHeard, wakeWord) && commandHeard.Some? && commandHeard.value != ""
    ensures r.Some? ==> r.value == Lower(commandHeard.value) && IsLowerCase(r.value) && r.value != ""
  {
    if DetectWakeWord(wakeHeard, wakeWord) then
      var text := CaptureCommand(commandHeard);
      if text.Some? && text.value != "" then text else None
    else
      None
  }

  /** Both screenshot keywords, "capture" and "screenshot", spell a 'c'. */
  lemma NoScreenshotWithoutC(command: string)
    requires 'c' !in command
    ensures !IsScreenshotCommand(command)
  {
    MissingCharExcludes(command, "capture", 0);
    MissingCharExcludes(command, "screenshot", 1);
  }

  /** "take a screenshot please" fires the screenshot and nothing else. */
  lemma ScreenshotScenario(command: string, world: World)
    requires command == "take a screenshot please"
    ensures Route(command, world) == Reply([GrabScreen], Some(CaptureScreen(world.grab).status))
  {
    ContainsAt(command, "screenshot", 7);
  }

  /** "open youtube" opens the video site and reports it. */
  lemma YouTubeScenario(command: string, world: World)
    requires command == "open youtube"
    ensures Route(command, world) == Reply([OpenUrl(YouTubeUrl)], Some(YouTubeStatus))
  {
    ContainsAt(command, "open", 0);
    ContainsAt(command, "youtube", 5);
    assert 'c' !in command && 'r' !in command;
    NoScreenshotWithoutC(command);
    MissingCharExcludes(command, "browser", 1);
  }

  /** "open the browser and shutdown" mentions shutdown, yet "open" shadows it: only the search page opens. */
  lemma OpenShadowsShutdownScenario(command: string, world: World)
    requires command == "open the browser and shutdown"
    ensures Contains(command, "shutdown")
    ensures Route(command, world) == Reply([OpenUrl(GoogleUrl)], Some(GoogleStatus))
  {
    ContainsAt(command, "shutdown", 21);
    ContainsAt(command, "open", 0);
    ContainsAt(command, "browser", 9);
    assert 'c' !in command;
    NoScreenshotWithoutC(command);
  }

  /** "what time is it" matches no rule: no call is made and no status is produced. */
  lemma NoMatchScenario(command: string, world: World)
    requires command == "what time is it"
    ensures Route(command, world) == Reply([], None)
  {
    assert 'c' !in command && 'o' !in command;
    NoScreenshotWithoutC(command);
    MissingCharExcludes(command, "open", 0);
    MissingCharExcludes(command, "shutdown", 5);
  }
}
