/**
 * The time loop's reset (LoopController): at scene start the controller
 * records which timers are running and which are paused and loads the save;
 * when the loop ends it resets the timers according to that record, saves,
 * and reloads the scene after a delay. A static flag survives the reload and
 * tells the next scene that a loop has happened.
 *
 * Timers, the save manager, Steam and the scene manager are outside this
 * model: what the controller asks of them is returned as an ordered list of
 * calls.
 */
module Loop {
  import opened Common

  /** Identity of a timer held by the timer manager. */
  type TimerId = int

  /** One entry of the timer manager's list, with what IsRunning answered at Start. */
  datatype TimerEntry = TimerEntry(timer: TimerId, running: bool)

  /** Calls the controller makes, in order. */
  datatype LoopCall =
    | ResetTimer(t: TimerId)
    | StartTimer(t: TimerId)
    | SaveGame
    | StartDelayedReload        // StartCoroutine(DelayLoadOfScene)
    | UnlockAchievement(name: string)
    | LoadGame
    | PlayResetAnimation        // the player animator's "Reset" trigger
    | LoadScene(index: int)

  /** The timers of `entries` that were running, in order. */
  function RunningTimers(entries: seq<TimerEntry>): (r: seq<TimerId>)
    ensures |r| <= |entries|
  {
    if entries == [] then [] else
      var last := entries[|entries| - 1];
      RunningTimers(entries[..|entries| - 1]) + (if last.running then [last.timer] else [])
  }

  /** The timers of `entries` that were not running, in order. */
  function PausedTimers(entries: seq<TimerEntry>): (r: seq<TimerId>)
    ensures |r| <= |entries|
  {
    if entries == [] then [] else
      var last := entries[|entries| - 1];
      PausedTimers(entries[..|entries| - 1]) + (if !last.running then [last.timer] else [])
  }

  function AllTimers(entries: seq<TimerEntry>): seq<TimerId>
  {
    if entries == [] then [] else AllTimers(entries[..|entries| - 1]) + [entries[|entries| - 1].timer]
  }

  /**
   * Start's partition: every timer goes into exactly one of the two lists,
   * so together they hold each timer as often as the manager does.
   */
  lemma {:induction false} StartPartitions(entries: seq<TimerEntry>)
    ensures multiset(RunningTimers(entries)) + multiset(PausedTimers(entries)) == multiset(AllTimers(entries))
    ensures |RunningTimers(entries)| + |PausedTimers(entries)| == |entries|
  {
    if entries != [] {
      StartPartitions(entries[..|entries| - 1]);
    }
  }

  /** A timer lands in the running list exactly when an entry for it was running. */
  lemma {:induction false} RunningTimersSpec(entries: seq<TimerEntry>, t: TimerId)
    ensures t in RunningTimers(entries) <==> exists i :: 0 <= i < |entries| && entries[i] == TimerEntry(t, true)
  {
    if entries != [] {
      var init := entries[..|entries| - 1];
      RunningTimersSpec(init, t);
      assert forall i :: 0 <= i < |init| ==> init[i] == entries[i];
      if exists i :: 0 <= i < |entries| && entries[i] == TimerEntry(t, true) {
        var i :| 0 <= i < |entries| && entries[i] == TimerEntry(t, true);
        if i < |init| {
          assert init[i] == TimerEntry(t, true);
        }
      }
    }
  }

  /** The calls for the running timers: each is reset and then started again. */
  function RestartCalls(timers: seq<TimerId>): (r: seq<LoopCall>)
    ensures |r| == 2 * |timers|
    ensures forall i :: 0 <= i < |timers| ==> r[2 * i] == ResetTimer(timers[i]) && r[2 * i + 1] == StartTimer(timers[i])
  {
    if timers == [] then []
    else RestartCalls(timers[..|timers| - 1]) + [ResetTimer(timers[|timers| - 1]), StartTimer(timers[|timers| - 1])]
  }

  /** The calls for the paused timers: each is only reset. */
  function ResetOnlyCalls(timers: seq<TimerId>): (r: seq<LoopCall>)
    ensures |r| == |timers|
    ensures forall i :: 0 <= i < |timers| ==> r[i] == ResetTimer(timers[i])
  {
    if timers == [] then []
    else ResetOnlyCalls(timers[..|timers| - 1]) + [ResetTimer(timers[|timers| - 1])]
  }

  /** The k-th restart call: even positions reset, odd positions start, timer k / 2. */
  lemma RestartCallAt(timers: seq<TimerId>, k: int)
    requires 0 <= k < 2 * |timers|
    ensures RestartCalls(timers)[k] == if k % 2 == 0 then ResetTimer(timers[k / 2]) else StartTimer(timers[k / 2])
  {
    assert k == 2 * (k / 2) + k % 2;
  }

  /** Everything ResetLoop asks for, given the lists recorded at Start. */
  function ResetLoopCalls(running: seq<TimerId>, paused: seq<TimerId>, steamPresent: bool): seq<LoopCall>
  {
    RestartCalls(running) + ResetOnlyCalls(paused) + [SaveGame, StartDelayedReload]
      + (if steamPresent then [UnlockAchievement("DIE")] else [])
  }

  /** Only timers that were running at Start are started again. */
  lemma OnlyRunningTimersStart(running: seq<TimerId>, paused: seq<TimerId>, steamPresent: bool, t: TimerId)
    ensures StartTimer(t) in ResetLoopCalls(running, paused, steamPresent) <==> t in running
  {
    var calls := ResetLoopCalls(running, paused, steamPresent);
    var rc := RestartCalls(running);
    if t in running {
      var i :| 0 <= i < |running| && running[i] == t;
      assert calls[2 * i + 1] == rc[2 * i + 1];
    }
    if StartTimer(t) in calls {
      var k :| 0 <= k < |calls| && calls[k] == StartTimer(t);
      assert k < |rc|;
      RestartCallAt(running, k);
    }
  }

  /**
   * The game is saved before the delayed reload is started, and each
   * ResetLoop asks for exactly one save and exactly one reload.
   */
  lemma SaveBeforeReload(running: seq<TimerId>, paused: seq<TimerId>, steamPresent: bool)
    ensures var calls := ResetLoopCalls(running, paused, steamPresent);
      && Occurrences(calls, SaveGame) == 1
      && Occurrences(calls, StartDelayedReload) == 1
      && exists i :: 0 <= i < |calls| - 1 && calls[i] == SaveGame && calls[i + 1] == StartDelayedReload
  {
    var timerCalls := RestartCalls(running) + ResetOnlyCalls(paused);
    var tail := if steamPresent then [UnlockAchievement("DIE")] else [];
    var calls := ResetLoopCalls(running, paused, steamPresent);
    assert calls == timerCalls + [SaveGame, StartDelayedReload] + tail;
    TimerCallsOnly(running, paused);
    OccurrencesAppend(timerCalls, [SaveGame, StartDelayedReload], SaveGame);
    OccurrencesAppend(timerCalls + [SaveGame, StartDelayedReload], tail, SaveGame);
    OccurrencesAppend(timerCalls, [SaveGame, StartDelayedReload], StartDelayedReload);
    OccurrencesAppend(timerCalls + [SaveGame, StartDelayedReload], tail, StartDelayedReload);
    assert calls[|timerCalls|] == SaveGame && calls[|timerCalls| + 1] == StartDelayedReload;
  }

  /** The timer part of ResetLoop holds only timer resets and starts. */
  lemma TimerCallsOnly(running: seq<TimerId>, paused: seq<TimerId>)
    ensures SaveGame !in RestartCalls(running) + ResetOnlyCalls(paused)
    ensures StartDelayedReload !in RestartCalls(running) + ResetOnlyCalls(paused)
  {
    var rc := RestartCalls(running);
    forall k | 0 <= k < |rc|
      ensures rc[k].ResetTimer? || rc[k].StartTimer?
    {
      RestartCallAt(running, k);
    }
  }

  /**
   * ResetLoop has no re-entry guard: running it twice asks for two delayed
   * reloads.
   */
  lemma ResetTwiceReloadsTwice(running: seq<TimerId>, paused: seq<TimerId>, steamPresent: bool)
    ensures Occurrences(ResetLoopCalls(running, paused, steamPresent) + ResetLoopCalls(running, paused, steamPresent),
                        StartDelayedReload) == 2
  {
    SaveBeforeReload(running, paused, steamPresent);
    var calls := ResetLoopCalls(running, paused, steamPresent);
    OccurrencesAppend(calls, calls, StartDelayedReload);
  }

  /** The static _looped flag, which outlives every scene's controller. */
  class LoopFlag {
    var looped: bool

    constructor ()
      ensures !looped
    {
      looped := false;
    }
  }

  /** LoopController: one per scene. */
  class LoopController {
    var runningTimersAtStart: seq<TimerId>
    var pausedTimersAtStart: seq<TimerId>

    constructor ()
      ensures runningTimersAtStart == [] && pausedTimersAtStart == []
    {
      runningTimersAtStart := [];
      pausedTimersAtStart := [];
    }

    /**
     * Start: files every timer of the manager under running or paused,
     * loads the save, and plays the reset animation exactly when a loop has
     * already happened.
     */
    method Start(timers: seq<TimerEntry>, flag: LoopFlag) returns (calls: seq<LoopCall>)
      modifies this
      ensures runningTimersAtStart == old(runningTimersAtStart) + RunningTimers(timers)
      ensures pausedTimersAtStart == old(pausedTimersAtStart) + PausedTimers(timers)
      ensures calls == [LoadGame] + (if flag.looped then [PlayResetAnimation] else [])
    {
      for i := 0 to |timers|
        invariant runningTimersAtStart == old(runningTimersAtStart) + RunningTimers(timers[..i])
        invariant pausedTimersAtStart == old(pausedTimersAtStart) + PausedTimers(timers[..i])
      {
        assert timers[..i + 1][..i] == timers[..i];
        if timers[i].running {
          runningTimersAtStart := runningTimersAtStart + [timers[i].timer];
        } else if !timers[i].running {
          pausedTimersAtStart := pausedTimersAtStart + [timers[i].timer];
        }
      }
      assert timers[..|timers|] == timers;
      calls := [LoadGame];
      if flag.looped {
        calls := calls + [PlayResetAnimation];
      }
    }

    /**
     * ResetLoop: restarts the timers that were running at Start, only
     * resets those that were paused, saves, starts the delayed reload, and
     * unlocks the DIE achievement when Steam is present.
     */
    method ResetLoop(steamPresent: bool) returns (calls: seq<LoopCall>)
      ensures calls == ResetLoopCalls(runningTimersAtStart, pausedTimersAtStart, steamPresent)
    {
      calls := [];
      for i := 0 to |runningTimersAtStart|
        invariant calls == RestartCalls(runningTimersAtStart[..i])
      {
        assert runningTimersAtStart[..i + 1][..i] == runningTimersAtStart[..i];
        calls := calls + [ResetTimer(runningTimersAtStart[i]), StartTimer(runningTimersAtStart[i])];
      }
      assert runningTimersAtStart[..|runningTimersAtStart|] == runningTimersAtStart;
      var restart := calls;
      for i := 0 to |pausedTimersAtStart|
        invariant calls == restart + ResetOnlyCalls(pausedTimersAtStart[..i])
      {
        assert pausedTimersAtStart[..i + 1][..i] == pausedTimersAtStart[..i];
        calls := calls + [ResetTimer(pausedTimersAtStart[i])];
      }
      assert pausedTimersAtStart[..|pausedTimersAtStart|] == pausedTimersAtStart;
      calls := calls + [SaveGame, StartDelayedReload];
      if steamPresent {
        calls := calls + [UnlockAchievement("DIE")];
      }
    }

    /**
     * DelayLoadOfScene, after its delay: reloads the active scene and sets
     * the static loop flag.
     */
    method DelayLoadOfScene(flag: LoopFlag, activeSceneIndex: int) returns (calls: seq<LoopCall>)
      modifies flag
      ensures flag.looped
      ensures calls == [LoadScene(activeSceneIndex)]
    {
      calls := [LoadScene(activeSceneIndex)];
      flag.looped := true;
    }
  }
}
