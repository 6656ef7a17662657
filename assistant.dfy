/**
 * VoiceAssistantApp of BitRate.py, with its two threads run as sequential
 * steps. The shared state is the command queue, the listbox of received
 * commands and the status label; every externally visible action is also
 * appended to an event log, so that the order of insertions, external calls
 * and status updates can be stated.
 */
module VoiceAssistant {
  import opened Wrappers
  import opened Text
  import opened Commands
  import opened Routing
  import opened CommandQueue

  /** Something the user or the machine can observe. */
  datatype Event =
    | Listed(text: string)     // a command inserted into the listbox
    | Did(effect: Effect)      // an external call attempted
    | Showed(status: string)   // the status label set to "Status: " + status

  const InitialStatus := "Idle"

  /** The status shown after the events `log`, starting from `status`. */
  function StatusAfter(status: string, log: seq<Event>): string
    decreases |log|
  {
    if log == [] then status
    else StatusAfter(if log[0].Showed? then log[0].status else status, log[1..])
  }

  lemma {:induction false} StatusAfterAppend(status: string, a: seq<Event>, b: seq<Event>)
    ensures StatusAfter(status, a + b) == StatusAfter(StatusAfter(status, a), b)
    decreases |a|
  {
    if a != [] {
      assert (a + b)[1..] == a[1..] + b;
      StatusAfterAppend(if a[0].Showed? then a[0].status else status, a[1..], b);
    } else {
      assert a + b == b;
    }
  }

  /** The texts inserted into the listbox by the events `log`, in order. */
  function Listings(log: seq<Event>): seq<string>
    decreases |log|
  {
    if log == [] then [] else (if log[0].Listed? then [log[0].text] else []) + Listings(log[1..])
  }

  lemma {:induction false} ListingsAppend(a: seq<Event>, b: seq<Event>)
    ensures Listings(a + b) == Listings(a) + Listings(b)
    decreases |a|
  {
    if a != [] {
      assert (a + b)[1..] == a[1..] + b;
      ListingsAppend(a[1..], b);
    } else {
      assert a + b == b;
    }
  }

  predicate IsLaunch(e: Event) {
    e.Did? && e.effect.Spawn?
  }

  /** No application was ever launched. */
  predicate NeverLaunched(log: seq<Event>) {
    forall i :: 0 <= i < |log| ==> !IsLaunch(log[i])
  }

  /** The events of the external calls in `effects`, in order. */
  function DidAll(effects: seq<Effect>): (r: seq<Event>)
    ensures |r| == |effects|
    ensures forall i :: 0 <= i < |r| ==> r[i].Did? && r[i].effect == effects[i]
  {
    seq(|effects|, i requires 0 <= i < |effects| => Did(effects[i]))
  }

  /** The events of routing one command: its external calls, then its status update if any. */
  function RouteEvents(d: Reply): seq<Event> {
    DidAll(d.effects) + (if d.status.Some? then [Showed(d.status.value)] else [])
  }

  /** What the worker does for one dequeued command: insert it into the listbox, then route it. */
  function CommandEvents(command: string, world: World): seq<Event> {
    [Listed(command)] + RouteEvents(Route(command, world))
  }

  /** The events of the worker processing `commands`, the first of them being the `n`-th overall. */
  function WorkerEvents(commands: seq<string>, world: nat -> World, n: nat): seq<Event>
    decreases |commands|
  {
    if commands == [] then []
    else CommandEvents(commands[0], world(n)) + WorkerEvents(commands[1..], world, n + 1)
  }

  /** Events that insert nothing leave the listbox as it is. */
  lemma {:induction false} NoListings(events: seq<Event>)
    requires forall i :: 0 <= i < |events| ==> !events[i].Listed?
    ensures Listings(events) == []
    decreases |events|
  {
    if events != [] {
      NoListings(events[1..]);
    }
  }

  /** External calls leave the status as it is. */
  lemma {:induction false} CallsKeepStatus(status: string, events: seq<Event>)
    requires forall i :: 0 <= i < |events| ==> events[i].Did?
    ensures StatusAfter(status, events) == status
    decreases |events|
  {
    if events != [] {
      CallsKeepStatus(status, events[1..]);
    }
  }

  /** Routing inserts nothing into the listbox, and the status it leaves is the router's status if any. */
  lemma RouteEventsEffect(status: string, d: Reply)
    ensures Listings(RouteEvents(d)) == []
    ensures StatusAfter(status, RouteEvents(d)) == if d.status.Some? then d.status.value else status
  {
    var calls := DidAll(d.effects);
    var shows := if d.status.Some? then [Showed(d.status.value)] else [];
    NoListings(RouteEvents(d));
    CallsKeepStatus(status, calls);
    StatusAfterAppend(status, calls, shows);
  }

  /** The worker inserts exactly the commands it processes into the listbox, in queue order. */
  lemma {:induction false} WorkerListsInOrder(commands: seq<string>, world: nat -> World, n: nat)
    ensures Listings(WorkerEvents(commands, world, n)) == commands
    decreases |commands|
  {
    if commands != [] {
      var d := Route(commands[0], world(n));
      RouteEventsEffect(InitialStatus, d);
      ListingsAppend([Listed(commands[0])], RouteEvents(d));
      ListingsAppend(CommandEvents(commands[0], world(n)), WorkerEvents(commands[1..], world, n + 1));
      WorkerListsInOrder(commands[1..], world, n + 1);
    }
  }

  /** The transcripts one listen_loop iteration receives: the wake-word attempt, then the command attempt. */
  datatype Heard = Heard(wake: Option<string>, command: Option<string>)

  /** The status updates of one listen_loop iteration, in order, ending with "Idle". */
  function CycleEvents(h: Heard): (r: seq<Event>)
    ensures |r| > 0 && r[|r| - 1] == Showed("Idle")
    ensures forall i :: 0 <= i < |r| ==> r[i].Showed?
  {
    var detected := DetectWakeWord(h.wake, DefaultWakeWord);
    var queued := CycleCommand(h.wake, h.command, DefaultWakeWord);
    [Showed("Listening for wake word")]
    + (if detected then [Showed("Wake word detected!"), Showed("Listening for command")] else [])
    + (if queued.Some? then [Showed("Command received: " + queued.value)] else [])
    + [Showed("Idle")]
  }

  /** The items one listen_loop iteration puts on the queue: none or one. */
  function CycleItems(h: Heard): (r: seq<Item>)
    ensures |r| <= 1
    ensures forall i :: 0 <= i < |r| ==> r[i].Some? && IsLowerCase(r[i].value) && r[i].value != ""
  {
    var queued := CycleCommand(h.wake, h.command, DefaultWakeWord);
    if queued.Some? then [queued] else []
  }

  /** The items a run of listen_loop iterations puts on the queue, in order. */
  function ScriptItems(script: seq<Heard>): (r: seq<Item>)
    ensures None !in r
    ensures |r| <= |script|
    decreases |script|
  {
    if script == [] then [] else CycleItems(script[0]) + ScriptItems(script[1..])
  }

  /**
   * Concatenation regroups. Called as a separate fact so that the callers'
   * proofs need not rediscover it among their other sequence facts.
   */
  lemma AppendAssoc<T>(a: seq<T>, b: seq<T>, c: seq<T>)
    ensures (a + b) + c == a + (b + c)
  {
  }

  /** The status updates of a run of listen_loop iterations, in order. */
  function ScriptEvents(script: seq<Heard>): seq<Event>
    decreases |script|
  {
    if script == [] then [] else CycleEvents(script[0]) + ScriptEvents(script[1..])
  }

  /** Running the iteration at `k` of a script takes its items and events off what remains to be done. */
  lemma ScriptStep(script: seq<Heard>, k: nat)
    requires k < |script|
    ensures ScriptItems(script[k..]) == CycleItems(script[k]) + ScriptItems(script[k + 1..])
    ensures ScriptEvents(script[k..]) == CycleEvents(script[k]) + ScriptEvents(script[k + 1..])
  {
    assert script[k..][1..] == script[k + 1..];
  }

  /** The worker's events for a command list start with those of its first command. */
  lemma WorkerStepEvents(t: string, rest: seq<string>, world: nat -> World, n: nat)
    ensures WorkerEvents([t] + rest, world, n) == CommandEvents(t, world(n)) + WorkerEvents(rest, world, n + 1)
  {
    assert ([t] + rest)[1..] == rest;
  }

  /** Every queued command is lower-case. */
  predicate CommandsLowerCase(queue: seq<Item>) {
    forall i :: 0 <= i < |queue| && queue[i].Some? ==> IsLowerCase(queue[i].value)
  }

  /**
   * The invariant of the assistant's state: the label and the listbox show
   * what the log says; exactly one sentinel exists once the window is closed
   * (queued, or taken by the worker) and none before; every queued command is
   * lower-case, so no application has ever been launched.
   */
  ghost predicate Consistent(queue: seq<Item>, listbox: seq<string>, status: string, log: seq<Event>,
                             stopped: bool, closed: bool)
  {
    && status == StatusAfter(InitialStatus, log)
    && listbox == Listings(log)
    && SentinelCount(queue) + (if stopped then 1 else 0) == (if closed then 1 else 0)
    && CommandsLowerCase(queue)
    && NeverLaunched(log)
  }

  /** One listen_loop iteration keeps the invariant: it inserts nothing, launches nothing, queues no sentinel. */
  lemma CycleKeepsConsistent(queue: seq<Item>, listbox: seq<string>, status: string, log: seq<Event>,
                             stopped: bool, closed: bool, h: Heard)
    requires Consistent(queue, listbox, status, log, stopped, closed)
    ensures Consistent(queue + CycleItems(h), listbox, "Idle", log + CycleEvents(h), stopped, closed)
  {
    var events := CycleEvents(h);
    var init := events[..|events| - 1];
    assert events == init + [Showed("Idle")];
    assert log + events == (log + init) + [Showed("Idle")];
    StatusAfterAppend(InitialStatus, log + init, [Showed("Idle")]);
    NoListings(events);
    ListingsAppend(log, events);
    assert NeverLaunched(log + events) by {
      forall i | 0 <= i < |log + events| ensures !IsLaunch((log + events)[i]) {
        if i >= |log| {
          assert (log + events)[i] == events[i - |log|];
        }
      }
    }
  }

  /**
   * One worker iteration on a command `t` at the head of the queue keeps the
   * invariant: the listbox gains `t`, the status is the router's if it gave
   * one, and the command, being lower-case, launches nothing.
   */
  lemma CommandStep(queue: seq<Item>, listbox: seq<string>, status: string, log: seq<Event>,
                    stopped: bool, closed: bool, t: string, world: World)
    requires Consistent(queue, listbox, status, log, stopped, closed)
    requires queue != [] && queue[0] == Some(t)
    ensures Consistent(queue[1..], listbox + [t],
                       (var d := Route(t, world); if d.status.Some? then d.status.value else status),
                       log + CommandEvents(t, world), stopped, closed)
  {
    var d := Route(t, world);
    var events := CommandEvents(t, world);
    TakeCommand(queue, t);
    DequeueKeepsLowerCase(queue);
    assert StatusAfter(InitialStatus, log + events) == if d.status.Some? then d.status.value else status by {
      StatusAfterAppend(InitialStatus, log, events);
      StatusAfterAppend(status, [Listed(t)], RouteEvents(d));
      RouteEventsEffect(status, d);
    }
    assert Listings(log + events) == listbox + [t] by {
      RouteEventsEffect(status, d);
      ListingsAppend(log, events);
      ListingsAppend([Listed(t)], RouteEvents(d));
    }
    CommandLaunchesNothing(log, t, world);
  }

  /** Taking the head off a queue of lower-case commands leaves a queue of lower-case commands. */
  lemma DequeueKeepsLowerCase(queue: seq<Item>)
    requires CommandsLowerCase(queue) && queue != []
    ensures CommandsLowerCase(queue[1..])
  {
    forall i | 0 <= i < |queue[1..]| && queue[1..][i].Some? ensures IsLowerCase(queue[1..][i].value) {
      assert queue[1..][i] == queue[i + 1];
    }
  }

  /** Processing a lower-case command adds no launch to a launch-free log. */
  lemma CommandLaunchesNothing(log: seq<Event>, t: string, world: World)
    requires NeverLaunched(log) && IsLowerCase(t)
    ensures NeverLaunched(log + CommandEvents(t, world))
  {
    var d := Route(t, world);
    var events := CommandEvents(t, world);
    LowerCaseNeverLaunches(t, world);
    forall i | 0 <= i < |log + events| ensures !IsLaunch((log + events)[i]) {
      if |log| + 1 <= i <= |log| + |d.effects| {
        assert (log + events)[i] == DidAll(d.effects)[i - |log| - 1];
        assert d.effects[i - |log| - 1] in d.effects;
      }
    }
  }

  /** The worker taking the sentinel keeps the invariant: the sentinel is now accounted for by the stopped worker. */
  lemma SentinelStep(queue: seq<Item>, listbox: seq<string>, status: string, log: seq<Event>, closed: bool)
    requires Consistent(queue, listbox, status, log, false, closed)
    requires queue != [] && queue[0] == None
    ensures Consistent(queue[1..], listbox, status, log, true, closed)
  {
    TakeSentinel(queue);
    DequeueKeepsLowerCase(queue);
  }

  /**
   * What command_worker has done so far, measured against the queue `q0`,
   * listbox `list0` and log `log0` it started from: while running, the
   * commands still ahead of the first sentinel are exactly the ones not yet
   * listed and routed; once stopped, all of them have been.
   */
  ghost predicate WorkerProgress(q0: seq<Item>, list0: seq<string>, log0: seq<Event>, world: nat -> World,
                                 queue: seq<Item>, listbox: seq<string>, log: seq<Event>, stopped: bool)
  {
    if !stopped then
      && AfterSentinel(queue) == AfterSentinel(q0)
      && (None in queue <==> None in q0)
      && listbox + UntilSentinel(queue) == list0 + UntilSentinel(q0)
      && log + WorkerEvents(UntilSentinel(queue), world, |listbox|)
         == log0 + WorkerEvents(UntilSentinel(q0), world, |list0|)
    else
      && None in q0
      && queue == AfterSentinel(q0)
      && listbox == list0 + UntilSentinel(q0)
      && log == log0 + WorkerEvents(UntilSentinel(q0), world, |list0|)
  }

  /** Taking the sentinel stops the worker with everything before it processed and everything after it left queued. */
  lemma WorkerProgressSentinel(q0: seq<Item>, list0: seq<string>, log0: seq<Event>, world: nat -> World,
                               before: seq<Item>, listbox: seq<string>, log: seq<Event>)
    requires WorkerProgress(q0, list0, log0, world, before, listbox, log, false)
    requires before != [] && before[0] == None
    ensures WorkerProgress(q0, list0, log0, world, before[1..], listbox, log, true)
  {
    TakeSentinel(before);
    assert None in before;
  }

  /** Taking a command, listing it and routing it keeps the worker's account of what remains. */
  lemma WorkerProgressCommand(q0: seq<Item>, list0: seq<string>, log0: seq<Event>, world: nat -> World,
                              before: seq<Item>, listBefore: seq<string>, logBefore: seq<Event>, t: string)
    requires WorkerProgress(q0, list0, log0, world, before, listBefore, logBefore, false)
    requires before != [] && before[0] == Some(t)
    ensures WorkerProgress(q0, list0, log0, world, before[1..], listBefore + [t],
                           logBefore + CommandEvents(t, world(|listBefore|)), false)
  {
    var n, rest := |listBefore|, before[1..];
    TakeCommand(before, t);
    assert None in before <==> None in rest by {
      assert before == [Some(t)] + rest;
    }
    assert listBefore + [t] + UntilSentinel(rest) == list0 + UntilSentinel(q0) by {
      AppendAssoc(listBefore, [t], UntilSentinel(rest));
    }
    assert logBefore + CommandEvents(t, world(n)) + WorkerEvents(UntilSentinel(rest), world, n + 1)
           == log0 + WorkerEvents(UntilSentinel(q0), world, |list0|) by {
      WorkerStepEvents(t, UntilSentinel(rest), world, n);
      AppendAssoc(logBefore, CommandEvents(t, world(n)), WorkerEvents(UntilSentinel(rest), world, n + 1));
    }
  }

  class VoiceAssistantApp {
    /** command_queue; in the source a module-level queue shared by the two threads */
    var queue: seq<Item>
    /** the entries of command_listbox */
    var listbox: seq<string>
    /** the last status passed to update_status; the label shows "Status: " + status */
    var status: string
    /** everything observable that has happened, in order */
    var log: seq<Event>
    /** command_worker has taken the sentinel and returned */
    var stopped: bool
    /** the window has been destroyed by on_closing */
    var closed: bool

    ghost predicate Valid()
      reads this
    {
      Consistent(queue, listbox, status, log, stopped, closed)
    }

    /** The text of status_label. */
    function Label(): string
      reads this
    {
      "Status: " + status
    }

    constructor ()
      ensures Valid()
      ensures queue == [] && listbox == [] && log == [] && status == InitialStatus
      ensures !stopped && !closed
      ensures Label() == "Status: Idle"
    {
      queue := [];
      listbox := [];
      status := InitialStatus;
      log := [];
      stopped := false;
      closed := false;
    }

    /** update_status */
    method UpdateStatus(s: string)
      modifies this
      ensures status == s && log == old(log) + [Showed(s)]
      ensures Label() == "Status: " + s
      ensures queue == old(queue) && listbox == old(listbox)
      ensures stopped == old(stopped) && closed == old(closed)
    {
      status := s;
      log := log + [Showed(s)];
    }

    /** listen_for_wake_word, with the recognised transcript (None: not understood) as input. */
    method ListenForWakeWord(heard: Option<string>, wakeWord: string) returns (detected: bool)
      modifies this
      ensures detected == DetectWakeWord(heard, wakeWord)
      ensures log == old(log) + [Showed("Listening for wake word")]
                    + (if detected then [Showed("Wake word detected!")] else [])
      ensures status == (if detected then "Wake word detected!" else "Listening for wake word")
      ensures queue == old(queue) && listbox == old(listbox)
      ensures stopped == old(stopped) && closed == old(closed)
    {
      UpdateStatus("Listening for wake word");
      detected := false;
      if heard.Some? {
        var transcript := Lower(heard.value);
        if Contains(transcript, wakeWord) {
          UpdateStatus("Wake word detected!");
          detected := true;
        }
      }
    }

    /** listen_for_command, with the recognised transcript (None: not understood) as input. */
    method ListenForCommand(heard: Option<string>) returns (text: Option<string>)
      modifies this
      ensures text == CaptureCommand(heard)
      ensures status == "Listening for command" && log == old(log) + [Showed("Listening for command")]
      ensures queue == old(queue) && listbox == old(listbox)
      ensures stopped == old(stopped) && closed == old(closed)
    {
      UpdateStatus("Listening for command");
      match heard
      case Some(transcript) => text := Some(Lower(transcript));
      case None => text := None;
    }

    /**
     * One iteration of listen_loop: wait for the wake word, capture a command,
     * enqueue it when it is not empty, and always end with status "Idle".
     */
    method ListenCycle(h: Heard)
      requires Valid()
      modifies this
      ensures Valid()
      ensures queue == old(queue) + CycleItems(h)
      ensures log == old(log) + CycleEvents(h)
      ensures status == "Idle"
      ensures listbox == old(listbox) && stopped == old(stopped) && closed == old(closed)
    {
      CycleSteps(h);
      CycleKeepsConsistent(old(queue), old(listbox), old(status), old(log), old(stopped), old(closed), h);
    }

    /** The statements of one listen_loop iteration, apart from the invariant they keep. */
    method CycleSteps(h: Heard)
      modifies this
      ensures queue == old(queue) + CycleItems(h)
      ensures log == old(log) + CycleEvents(h)
      ensures status == "Idle"
      ensures listbox == old(listbox) && stopped == old(stopped) && closed == old(closed)
    {
      ghost var shown := [Showed("Listening for wake word")];
      var detected := ListenForWakeWord(h.wake, DefaultWakeWord);
      if detected {
        var text := ListenForCommand(h.command);
        shown := shown + [Showed("Wake word detected!"), Showed("Listening for command")];
        if text.Some? && text.value != "" {
          UpdateStatus("Command received: " + text.value);
          queue := queue + [text];
          shown := shown + [Showed("Command received: " + text.value)];
        }
      }
      assert log == old(log) + shown;
      UpdateStatus("Idle");
      assert CycleEvents(h) == shown + [Showed("Idle")];
    }

    /** listen_loop, run for the iterations `script` describes. */
    method ListenLoop(script: seq<Heard>)
      requires Valid()
      modifies this
      ensures Valid()
      ensures queue == old(queue) + ScriptItems(script)
      ensures log == old(log) + ScriptEvents(script)
      ensures |script| > 0 ==> status == "Idle"
      ensures listbox == old(listbox) && stopped == old(stopped) && closed == old(closed)
    {
      for k := 0 to |script|
        invariant Valid()
        invariant queue + ScriptItems(script[k..]) == old(queue) + ScriptItems(script)
        invariant log + ScriptEvents(script[k..]) == old(log) + ScriptEvents(script)
        invariant k > 0 ==> status == "Idle"
        invariant listbox == old(listbox) && stopped == old(stopped) && closed == old(closed)
      {
        ghost var queue1, log1 := queue, log;
        ScriptStep(script, k);
        ListenCycle(script[k]);
        assert queue + ScriptItems(script[k + 1..]) == queue1 + ScriptItems(script[k..]) by {
          AppendAssoc(queue1, CycleItems(script[k]), ScriptItems(script[k + 1..]));
        }
        assert log + ScriptEvents(script[k + 1..]) == log1 + ScriptEvents(script[k..]) by {
          AppendAssoc(log1, CycleEvents(script[k]), ScriptEvents(script[k + 1..]));
        }
      }
    }

    /** process_command: route `command` and make the call it selects. */
    method ProcessCommand(command: string, world: World)
      modifies this
      ensures log == old(log) + RouteEvents(Route(command, world))
      ensures status == (var d := Route(command, world); if d.status.Some? then d.status.value else old(status))
      ensures queue == old(queue) && listbox == old(listbox)
      ensures stopped == old(stopped) && closed == old(closed)
    {
      var d := Route(command, world);
      log := log + DidAll(d.effects);
      if d.status.Some? {
        UpdateStatus(d.status.value);
      }
    }

    /**
     * One pass of command_worker's loop body, on an available item: take it;
     * on the sentinel, stop; otherwise insert the command into the listbox
     * and route it. `world(n)` answers the calls of the n-th command processed.
     */
    method WorkerTake(world: nat -> World)
      requires Valid() && !stopped && queue != []
      modifies this
      ensures Valid() && closed == old(closed)
      ensures queue == old(queue)[1..]
      ensures stopped <==> old(queue)[0].None?
      ensures old(queue)[0].None? ==> listbox == old(listbox) && log == old(log)
      ensures old(queue)[0].Some? ==>
        && listbox == old(listbox) + [old(queue)[0].value]
        && log == old(log) + CommandEvents(old(queue)[0].value, world(|old(listbox)|))
    {
      var item := queue[0];
      queue := queue[1..];
      if item.None? {
        SentinelStep(old(queue), listbox, status, log, closed);
        stopped := true;
      } else {
        var n := |listbox|;
        listbox := listbox + [item.value];
        log := log + [Listed(item.value)];
        ProcessCommand(item.value, world(n));
        AppendAssoc(old(log), [Listed(item.value)], RouteEvents(Route(item.value, world(n))));
        CommandStep(old(queue), old(listbox), old(status), old(log), stopped, closed, item.value, world(n));
      }
    }

    /**
     * command_worker: take items from the queue in FIFO order, insert each
     * command into the listbox and route it, and return at the first
     * sentinel. Where the source would block on an empty queue, this returns;
     * after the sentinel it does nothing. `world(n)` answers the calls of the
     * n-th command processed.
     */
    method CommandWorker(world: nat -> World)
      requires Valid()
      modifies this
      ensures Valid()
      ensures stopped == (old(stopped) || None in old(queue))
      ensures old(stopped) ==> queue == old(queue) && log == old(log) && listbox == old(listbox)
      ensures !old(stopped) ==> queue == AfterSentinel(old(queue))
      ensures !old(stopped) ==> listbox == old(listbox) + UntilSentinel(old(queue))
      ensures !old(stopped) ==> log == old(log) + WorkerEvents(UntilSentinel(old(queue)), world, |old(listbox)|)
      ensures closed == old(closed)
    {
      if stopped {
        return;
      }
      ghost var q0, log0, list0 := queue, log, listbox;
      assert UntilSentinel(queue) == UntilSentinel(q0);
      while !stopped && queue != []
        invariant Valid() && closed == old(closed)
        invariant WorkerProgress(q0, list0, log0, world, queue, listbox, log, stopped)
        decreases |queue|
      {
        ghost var before, listBefore, logBefore := queue, listbox, log;
        WorkerTake(world);
        if before[0].None? {
          WorkerProgressSentinel(q0, list0, log0, world, before, listBefore, logBefore);
        } else {
          WorkerProgressCommand(q0, list0, log0, world, before, listBefore, logBefore, before[0].value);
        }
      }
    }

    /** on_closing: when the user confirms, destroy the window and enqueue exactly one sentinel. */
    method OnClosing(confirmed: bool)
      requires Valid() && !closed
      modifies this
      ensures Valid()
      ensures closed == confirmed
      ensures queue == old(queue) + (if confirmed then [None] else [])
      ensures SentinelCount(queue) == (if confirmed then 1 else 0)
      ensures confirmed ==> UntilSentinel(queue) == UntilSentinel(old(queue)) && |UntilSentinel(queue)| == |old(queue)|
      ensures log == old(log) && listbox == old(listbox) && status == old(status) && stopped == old(stopped)
    {
      if confirmed {
        closed := true;
        SentinelCutsOff(queue, []);
        assert queue + [None] + [] == queue + [None];
        queue := queue + [None];
      }
    }
  }

  /**
   * A whole session in one schedule the two threads can follow: the app
   * starts, listen_loop runs through `script`, command_worker works off every
   * queued command while the window is still open, the user confirms closing,
   * and the worker takes the sentinel and returns. Every command heard is
   * listed, in the order it was heard, nothing is left queued, the worker
   * ends, and no application is ever launched.
   */
  method Session(script: seq<Heard>, world: nat -> World)
    returns (listed: seq<string>, events: seq<Event>, left: seq<Item>, finished: bool)
    ensures listed == UntilSentinel(ScriptItems(script))
    ensures |listed| == |ScriptItems(script)|
    ensures forall i :: 0 <= i < |listed| ==> Some(listed[i]) == ScriptItems(script)[i]
    ensures Listings(events) == listed
    ensures NeverLaunched(events)
    ensures left == [] && finished
  {
    var app := new VoiceAssistantApp();
    app.ListenLoop(script);
    WorkOff(app, world, ScriptItems(script));
    listed, events := app.listbox, app.log;
    left, finished := CloseAndStop(app, world);
  }

  /** command_worker on an open window whose queue holds the commands `items` and no sentinel: it lists them all and keeps waiting. */
  method WorkOff(app: VoiceAssistantApp, world: nat -> World, ghost items: seq<Item>)
    requires app.Valid() && !app.stopped && !app.closed && None !in items
    requires app.queue == items
    modifies app
    ensures app.Valid() && !app.stopped && !app.closed && app.queue == []
    ensures app.listbox == old(app.listbox) + UntilSentinel(items) && Listings(app.log) == app.listbox
    ensures NeverLaunched(app.log)
  {
    app.CommandWorker(world);
  }

  /** on_closing confirmed on an empty queue, then command_worker takes the sentinel: the worker ends and nothing else changes. */
  method CloseAndStop(app: VoiceAssistantApp, world: nat -> World) returns (left: seq<Item>, finished: bool)
    requires app.Valid() && !app.stopped && !app.closed && app.queue == []
    modifies app
    ensures app.Valid() && app.closed && left == [] && finished
    ensures app.listbox == old(app.listbox) && app.log == old(app.log)
  {
    app.OnClosing(true);
    assert app.queue == [None];
    app.CommandWorker(world);
    left, finished := app.queue, app.stopped;
  }
}
