# BitRate voice assistant: routing and queue control in Dafny

BitRate is a desktop voice assistant. One thread (`listen_loop`) waits for the
wake word "jarvis". It then transcribes a follow-up utterance, lower-cases it
and puts it on a shared command queue. A second thread (`command_worker`)
takes commands off the queue in FIFO order. It inserts each one into the
window's listbox and routes it through `process_command`. That function is a
first-match-wins chain of substring tests that picks at most one action:

- take a screenshot;
- open Google or YouTube (through `handle_web_command`);
- launch an application;
- shut the machine down.

Closing the window, once the user confirms, enqueues a single `None`
sentinel, which stops the worker.

The project models this core:

- `text.dfy` (module `Text`): Python's `sub in s` as `Contains`, with a
  reference definition (`OccursAt`) proved equal to it; `str.lower()` as
  `Lower`.
- `commands.dfy` (module `Commands`): the four command functions of
  `commands.py`. Each library call is recorded as an `Effect`. The library's
  answer is a parameter: a `GrabOutcome` (the timestamp or the exception
  text) or a `SpawnOutcome`. Each function returns the status string the
  source returns.
- `routing.dfy` (module `Routing`): the decisions of `BitRate.py` as pure
  functions. These are the keyword chain of `process_command` (`Route`), the
  wake-word test, the command capture and the choice one `listen_loop`
  iteration makes. Concrete routing scenarios are included.
- `queue.dfy` (module `CommandQueue`): the queue as a value, and what the
  worker takes from it (`UntilSentinel`) and leaves behind (`AfterSentinel`).
- `assistant.dfy` (module `VoiceAssistant`): the class `VoiceAssistantApp`
  with fields for the queue, the listbox, the status and an event log of
  what is observable, in order:
  - `Listed`: a listbox insertion;
  - `Did`: an external call;
  - `Showed`: a status update.

  Its methods are `update_status`, `listen_for_wake_word`,
  `listen_for_command`, `process_command`, one `listen_loop` iteration and a
  run of them, `command_worker` and `on_closing`. `Valid()` is the invariant
  that the constructor establishes and that `ListenCycle`, `ListenLoop`,
  `WorkerTake`, `CommandWorker` and `OnClosing` keep (the smaller methods
  they call state only what they change):
  - the label and the listbox agree with the log;
  - there is exactly one sentinel after the window is closed and none before;
  - every queued command is lower-case;
  - no application has ever been launched.

  `Session` runs a whole session end to end.

Two behaviours of the code are worth knowing when reading the contracts.
Any command that fails the screenshot test and contains "open" takes the
`open` branch and never reaches the shutdown test (`BitRate.py:103-111`); `Route` states this and
`OpenShadowsShutdownScenario` shows it on "open the browser and shutdown".
A command matching no rule makes no call and sets no status, so the label
keeps its previous text (`BitRate.py:100-111`); see `Route` and
`NoMatchScenario`. `listen_loop` never looks at the sentinel; the model
runs it over a finite script of transcripts.

## Model

| member | source | states |
|---|---|---|
| Text.ContainsIffOccurs | BitRate.py:64 | Python's substring test `Contains(s, sub)` holds exactly when `sub` occurs in `s` at some position (both directions, by induction on `s`) |
| Text.Lower | BitRate.py:63 | `str.lower()` keeps the length, leaves no upper-case letter, keeps every other character and maps each upper-case letter to its lower-case one |
| Text.LowerFixesLowerCase | BitRate.py:63 | lower-casing text that is already lower-case changes nothing, so lower-casing is idempotent |
| Text.LowerCaseExcludes | BitRate.py:107 | a lower-case text never contains a string with an upper-case letter in it |
| Commands.ScreenshotPath | commands.py:27-28 | the screenshot file lies under `C:/screencapture/screencapture_`, ends in `.png` and holds the timestamp in between |
| Commands.CaptureScreen | commands.py:17-32 | exactly one screen grab is attempted and the call never fails; the status starts with "Screenshot saved as " exactly on success and then names the file, and starts with "Error capturing screen: " exactly on failure and then carries the error text |
| Commands.OpenApp | commands.py:35-48 | exactly one spawn of the given path is attempted and the call never fails; the status is "Opened application: " + path exactly on success, and on failure starts with "An error occurred while trying to open " + path followed by ":" and the error text |
| Commands.Shutdown | commands.py:69-76 | always runs `shutdown /s /t 1` once and returns "Shutdown command issued" |
| Commands.HandleWebCommand | commands.py:51-66 | opens at most one URL; returns None, opening nothing, exactly when neither "browser" nor "youtube" occurs; "browser" opens Google with "Opened Google" even when "youtube" occurs; otherwise "youtube" opens YouTube with "Opened YouTube"; a returned status is never empty |
| Commands.StatusesAreDistinct | commands.py:17-48 | for every outcome, the statuses of capture_screen, open_app and shutdown differ pairwise, so the label tells which of them ran |
| Commands.WebStatusesAreDistinct | commands.py:51-66 | a status returned by handle_web_command is never a status of capture_screen, open_app or shutdown |
| Routing.Route | BitRate.py:100-111 | process_command makes at most one external call and sets a status exactly when it makes one; the screenshot fires exactly when ("capture" and "screen") or "screenshot" occurs, whatever else occurs; with "open" present shutdown is never invoked; shutdown is invoked exactly when "shutdown" occurs, "open" does not and the screenshot test fails; a URL is opened exactly on "open" plus "browser" or "youtube", with handle_web_command's answer; the application is launched exactly when "open" occurs, the web handler returns None and the literal "App Name" occurs; each branch's status is its command's status |
| Routing.LowerCaseNeverLaunches | BitRate.py:107-108 | a lower-case command, as listen_for_command produces, never launches the application |
| Routing.DetectWakeWord | BitRate.py:47-69 | the wake word is detected exactly when a transcript was recognised and the wake word occurs somewhere in its lower-cased form; a recognition failure gives false |
| Routing.WakeWordIgnoresCase | BitRate.py:63-64 | detection gives the same answer for a transcript and for its lower-cased form |
| Routing.CaptureCommand | BitRate.py:71-88 | listen_for_command returns a text exactly when the transcript was recognised, and then it is the transcript lower-cased, of the same length |
| Routing.CycleCommand | BitRate.py:126-130 | one listen_loop iteration enqueues a command exactly when the wake word was detected and the command transcript was recognised and is non-empty; the command is the lower-cased transcript |
| Routing.NoScreenshotWithoutC | BitRate.py:100 | a command without the letter 'c' can never pass the screenshot test |
| Routing.ScreenshotScenario | BitRate.py:100-102 | "take a screenshot please" grabs the screen, calls nothing else, and reports the capture status |
| Routing.YouTubeScenario | BitRate.py:103-106 | "open youtube" opens YouTube and reports "Opened YouTube" |
| Routing.OpenShadowsShutdownScenario | BitRate.py:103-111 | "open the browser and shutdown" contains "shutdown", yet only Google is opened and the machine is not shut down |
| Routing.NoMatchScenario | BitRate.py:100-111 | "what time is it" makes no call and sets no status |
| CommandQueue.UntilSentinel | BitRate.py:115-119 | the commands the worker processes are the texts before the first sentinel, in queue order, and all of the queue when it holds no sentinel |
| CommandQueue.AfterSentinel | BitRate.py:115-118 | what stays queued once the worker stops is exactly what follows the first sentinel, and nothing when there is no sentinel |
| CommandQueue.UntilSentinelAppend | BitRate.py:115-119 | FIFO: the commands of a sentinel-free prefix are processed before anything queued behind them |
| CommandQueue.SentinelCutsOff | BitRate.py:117-118 | nothing queued after a sentinel is ever processed; all of it is left behind |
| CommandQueue.TakeCommand | BitRate.py:116-120 | taking a command off the head makes it the first one processed and leaves the rest's account unchanged |
| CommandQueue.TakeSentinel | BitRate.py:116-118 | taking the sentinel off the head processes nothing, removes exactly one sentinel and leaves the rest queued |
| VoiceAssistant.RouteEventsEffect | BitRate.py:100-111 | routing a command inserts nothing into the listbox, and the status afterwards is the router's status if it gave one, else the previous status |
| VoiceAssistant.WorkerListsInOrder | BitRate.py:113-121 | the worker inserts exactly the commands it processes into the listbox, in processing order |
| VoiceAssistant.CycleEvents | BitRate.py:126-131 | one listen_loop iteration only updates the status, and its last update is "Idle" |
| VoiceAssistant.CycleItems | BitRate.py:126-130 | one iteration enqueues at most one item, a non-empty lower-case command |
| VoiceAssistant.ScriptItems | BitRate.py:123-131 | a run of iterations never enqueues the sentinel and enqueues at most one command per iteration |
| VoiceAssistant.CycleKeepsConsistent | BitRate.py:123-131 | a listen_loop iteration keeps the invariant: it inserts nothing, launches nothing and enqueues only lower-case commands |
| VoiceAssistant.CommandStep | BitRate.py:116-120 | processing a queued command keeps the invariant: the listbox gains the command, the status becomes the router's if any, and no application is launched |
| VoiceAssistant.CommandLaunchesNothing | BitRate.py:107-108 | processing a lower-case command adds no application launch to the log |
| VoiceAssistant.SentinelStep | BitRate.py:116-118 | taking the sentinel keeps the invariant, with the sentinel now accounted for by the stopped worker |
| VoiceAssistant.WorkerProgressSentinel | BitRate.py:116-118 | on taking the sentinel the worker has processed exactly the commands before it and left exactly what follows it |
| VoiceAssistant.WorkerProgressCommand | BitRate.py:116-120 | taking, listing and routing a command keeps the account of the listbox and the log against what remains to be processed |
| VoiceAssistant.VoiceAssistantApp.constructor | BitRate.py:36-40 | the app starts with an empty queue and listbox, status "Idle" (label "Status: Idle"), and the invariant |
| VoiceAssistant.VoiceAssistantApp.UpdateStatus | BitRate.py:133-140 | update_status sets the status, so the label reads "Status: " followed by it, and records it, changing nothing else |
| VoiceAssistant.VoiceAssistantApp.ListenForWakeWord | BitRate.py:47-69 | the result is the wake-word test; the status shows "Listening for wake word" and then "Wake word detected!" exactly on detection |
| VoiceAssistant.VoiceAssistantApp.ListenForCommand | BitRate.py:71-88 | the result is the lower-cased transcript or None; the status shows "Listening for command" |
| VoiceAssistant.VoiceAssistantApp.ListenCycle | BitRate.py:125-131 | one listen_loop iteration keeps the invariant, adds exactly its command (if any) to the queue, records its status updates, ends on "Idle", and leaves the listbox alone |
| VoiceAssistant.VoiceAssistantApp.CycleSteps | BitRate.py:126-131 | the statements of one iteration queue exactly `CycleItems` and show exactly `CycleEvents` |
| VoiceAssistant.VoiceAssistantApp.ListenLoop | BitRate.py:123-131 | a run of iterations keeps the invariant and appends the commands heard, in order, to the queue |
| VoiceAssistant.VoiceAssistantApp.ProcessCommand | BitRate.py:90-111 | process_command makes exactly the calls `Route` selects, then sets the status if `Route` gives one, else leaves it; queue and listbox are untouched |
| VoiceAssistant.VoiceAssistantApp.WorkerTake | BitRate.py:116-120 | one worker step removes the head of the queue; a sentinel stops the worker, a command is inserted into the listbox and then routed |
| VoiceAssistant.VoiceAssistantApp.CommandWorker | BitRate.py:113-121 | the worker stops exactly when a sentinel was queued; it processes the commands before the first sentinel, in FIFO order, listing each before routing it, and leaves exactly what follows the sentinel |
| VoiceAssistant.VoiceAssistantApp.OnClosing | BitRate.py:142-146 | on confirmation the window closes and exactly one sentinel is enqueued, behind every command already queued; on refusal nothing changes |
| VoiceAssistant.Session | BitRate.py:113-146 | listening through a script, then the worker working off the queue, then a confirmed close and the worker taking the sentinel: every command heard is listed, in order and lower-cased, the queue ends empty, the worker ends, and no application is launched |
| VoiceAssistant.WorkOff | BitRate.py:113-121 | the worker on an open window whose queue holds commands and no sentinel appends them all to the listbox, in order, and empties the queue without stopping |
| VoiceAssistant.CloseAndStop | BitRate.py:113-118 | a confirmed close on an empty queue followed by the worker: the window is closed, the worker takes the sentinel and ends, and the listbox and log are unchanged |

## Left out

- The Tkinter window, its widgets, `root.update()` and the quit dialog are not modelled. The listbox is a sequence, the label is the `status` field, and the dialog's answer is the `confirmed` parameter of `OnClosing`.
- Microphone capture and Google speech recognition are external I/O. Their results are inputs: `Option<string>`, where `None` is the recogniser's "not understood".
- spaCy tokenisation and the token printing in `process_command` are debug output with no effect on behaviour.
- Threads and `queue.Queue` blocking are not modelled, and neither is `task_done`. The two loops run as sequential steps.
- `VoiceAssistant.VoiceAssistantApp.CommandWorker`: returns when the queue is empty instead of blocking. A call after the sentinel was taken does nothing.
- `VoiceAssistant.VoiceAssistantApp.ListenLoop`: runs over a finite script of transcripts, where the source loops forever.
- `VoiceAssistant.Session`: covers one interleaving only. Listening ends, the worker works off the queue, and only then is the window closed.
- `VoiceAssistant.VoiceAssistantApp`: the methods stay callable after `OnClosing` has closed the window. In the source, `root.destroy()` ends `mainloop`, so the process exits (main.py:12), and any widget call made after the destroy raises: `update_status` from `listen_loop`, or `command_listbox.insert` from the worker on a command queued before the sentinel. The model does not capture that failure.
- Recogniser errors other than "not understood" (`sr.RequestError` when the service is unreachable, for example) are not modelled. The source catches only `sr.UnknownValueError` (BitRate.py:67, 86), so such an error ends `listen_loop` for good; the model's transcript input has no outcome for it.
- `Text.Lower`: lower-cases ASCII letters only; Python's `str.lower()` also folds non-ASCII letters and can change the length (`'İ'.lower()` gives two code points). Length preservation, as stated by `Text.Lower` and `Routing.CaptureCommand`, belongs to the model. No keyword test and no launch-freedom property depends on it: none of the keywords, nor "jarvis", can be completed by a non-ASCII fold.
- The real side effects are recorded as `Effect` values and not performed: PIL/OpenCV screen capture, `subprocess.Popen`, `webbrowser.open` and `os.system`.
- `Commands.CaptureScreen`: the timestamp is a parameter. Its `%Y%m%d_%H%M%S` formatting from the clock is not modelled.
- The result of `cv2.imwrite` is not modelled. The source ignores it as well.
- Runtime failures outside the `try` blocks are not modelled, for example an exception raised by `webbrowser.open` or `os.system`.
- A status update from a background thread, which Tkinter does not support, is not modelled.
- main.py is not part of this model; it only creates the window and the app.
