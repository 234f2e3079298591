/** The control panel object: form state, the DelayClick list, the click
    counter with its CPS tracker and inactivity watchdog, and the session
    lifecycle. The clock is the `now` parameter; the backend's answer is the
    `backendOk` parameter; a timer firing is an explicit method call. */
module App {
  import opened Text
  import opened Interval
  import opened DelayClicks
  import opened Counter
  import opened Session

  /** What a start attempt did: nothing (blank title), or one request sent. */
  datatype StartOutcome =
    | Rejected
    | Sent(payload: Payload, accepted: bool, warning: TimingWarning)

  /** What a configuration change did: the stop request it sent, if the
      session was active, and the snapshot it saved. */
  datatype ConfigChange = ConfigChange(stopSent: Option<Payload>, saved: SavedConfig)

  /** What detectActiveWindow appends to the page's document title. */
  const BROWSER_SUFFIX: string := " - Brave"

  /** A detected title is never blank, so after detection a start is never
      refused for its title. */
  lemma DetectedTitleNotBlank(documentTitle: string)
    ensures Trim(documentTitle + BROWSER_SUFFIX) != []
  {
    var t := documentTitle + BROWSER_SUFFIX;
    assert t[|documentTitle| + 1] == '-';
    TrimEmptyIffBlank(t);
  }

  /** The keys handleKeyboardShortcuts looks at. */
  datatype KeyCode = F1 | F2 | F3 | OtherKey

  /** What a keyboard shortcut did. */
  datatype ShortcutOutcome =
    | Ignored
    | StartAttempted(start: StartOutcome)
    | Triggered(total: int, trace: seq<Visit>)
    | StopRequested(stop: Payload)

  class AutoClickApp {
    // The form.
    var windowTitle: string
    var mode: Mode
    var intervalText: string
    var speedMode: SpeedMode
    var rows: seq<Row>

    // Click counter, CPS tracker and inactivity watchdog.
    var clickCounter: int
    var cpsStartTime: Option<int>
    var lastClickTime: Option<int>
    var currentCps: real
    var cpsSamplerDue: Option<int>
    var inactivityDeadline: Option<int>

    // Session.
    var isActive: bool
    var isLoading: bool
    var status: Status

    /** The delete button refuses to remove the last row. */
    ghost predicate Valid()
      reads this`rows
    {
      |rows| >= 1
    }

    function FormState(): Form
      reads this`windowTitle, this`mode, this`intervalText, this`speedMode
    {
      Form(windowTitle, mode, intervalText, speedMode)
    }

    function Counting(): Tracker
      reads this`clickCounter, this`cpsStartTime, this`lastClickTime,
            this`currentCps, this`cpsSamplerDue, this`inactivityDeadline
    {
      Tracker(clickCounter, cpsStartTime, lastClickTime, currentCps, cpsSamplerDue, inactivityDeadline)
    }

    /** Start-up: the page's form values, then the stored configuration if
        there is one, then the initial step if the list is still empty, then
        window detection, which replaces the title by the page's document
        title with the browser suffix. */
    constructor (saved: Option<SavedConfig>, page: Form, documentTitle: string, now: int)
      ensures Valid()
      ensures windowTitle == documentTitle + BROWSER_SUFFIX
      ensures saved.Some? ==> FormState() == LoadedForm(saved.value).(windowTitle := windowTitle)
      ensures saved.Some? ==> rows == LoadedRows(saved.value)
      ensures saved.Some? ==> Counting() == Loaded(saved.value.clickCounter, now)
      ensures saved.None? ==> FormState() == page.(windowTitle := windowTitle)
      ensures saved.None? ==> rows == [RowOf(INITIAL_DELAY, INITIAL_COUNT)] && Counting() == Idle
      ensures !isActive && !isLoading && status == Disconnected
    {
      windowTitle, mode, intervalText, speedMode := page.windowTitle, page.mode, page.intervalText, page.speedMode;
      rows := [];
      clickCounter, cpsStartTime, lastClickTime, currentCps := 0, None, None, 0.0;
      cpsSamplerDue, inactivityDeadline := None, None;
      isActive, isLoading, status := false, true, Disconnected;
      new;
      LoadStartup(saved, now);
      ghost var loaded := FormState();
      FinishStartup(documentTitle);
      assert FormState() == loaded.(windowTitle := windowTitle);
    }

    /** The end of start-up: window detection, then the session is idle and
        no longer loading. */
    method FinishStartup(documentTitle: string)
      modifies this`windowTitle, this`isActive, this`isLoading
      ensures windowTitle == documentTitle + BROWSER_SUFFIX
      ensures !isActive && !isLoading
    {
      var _ := DetectActiveWindow(documentTitle);
      isActive := false;
      isLoading := false;
    }

    /** The loading part of start-up, from the page's form and an empty,
        idle tracker: the stored configuration if there is one, then the
        initial step if the list is still empty. */
    method LoadStartup(saved: Option<SavedConfig>, now: int)
      requires rows == [] && Counting() == Idle
      modifies this`windowTitle, this`mode, this`intervalText, this`speedMode, this`rows,
               this`clickCounter, this`cpsStartTime, this`currentCps, this`cpsSamplerDue,
               this`inactivityDeadline, this`status
      ensures Valid() && status == Disconnected
      ensures saved.Some? ==> FormState() == LoadedForm(saved.value) && rows == LoadedRows(saved.value)
      ensures saved.Some? ==> Counting() == Loaded(saved.value.clickCounter, now)
      ensures saved.None? ==> FormState() == old(FormState()) && rows == [RowOf(INITIAL_DELAY, INITIAL_COUNT)]
      ensures saved.None? ==> Counting() == Idle
    {
      if saved.Some? {
        LoadConfiguration(saved.value, now);
      }
      AddInitialDelayClick();
      status := Disconnected;
    }

    /** detectActiveWindow: the title field gets the page's document title
        with the browser suffix, and the configuration is saved. */
    method DetectActiveWindow(documentTitle: string) returns (saved: SavedConfig)
      modifies this`windowTitle
      ensures windowTitle == documentTitle + BROWSER_SUFFIX
      ensures saved == Snapshot(FormState(), rows, clickCounter)
    {
      windowTitle := documentTitle + BROWSER_SUFFIX;
      saved := SaveConfiguration();
    }

    /** loadConfiguration, given a stored configuration: the form fields
        with their defaults, the saved counter (tracking and the watchdog
        started for a positive one), and the list replaced by one row per
        saved step, or by the initial step when none was saved. */
    method LoadConfiguration(c: SavedConfig, now: int)
      modifies this`windowTitle, this`mode, this`intervalText, this`speedMode, this`rows,
               this`clickCounter, this`cpsStartTime, this`currentCps, this`cpsSamplerDue,
               this`inactivityDeadline
      ensures FormState() == LoadedForm(c) && rows == LoadedRows(c)
      ensures Counting() == LoadedOnto(old(Counting()), c.clickCounter, now)
    {
      var f := LoadedForm(c);
      windowTitle, mode, intervalText, speedMode := f.windowTitle, f.mode, f.intervalText, f.speedMode;
      assert FormState() == f;
      LoadCounter(c.clickCounter, now);
      rows := [];
      LoadDelayClicks(c);
    }

    /** The counter part of loadConfiguration: the saved counter, and for a
        positive one CPS tracking and the watchdog started now. */
    method LoadCounter(counter: int, now: int)
      modifies this`clickCounter, this`cpsStartTime, this`currentCps, this`cpsSamplerDue,
               this`inactivityDeadline
      ensures Counting() == LoadedOnto(old(Counting()), counter, now)
    {
      clickCounter := counter;
      if clickCounter > 0 {
        StartCpsTracking(now);
        ResetInactivityTimeout(now);
      }
    }

    /** The list part of loadConfiguration: starting from the cleared list,
        one addDelayClick per saved step, or addInitialDelayClick when none
        was saved. */
    method LoadDelayClicks(c: SavedConfig)
      requires rows == []
      modifies this`rows
      ensures rows == LoadedRows(c)
    {
      if |c.delayClicks| > 0 {
        var i := 0;
        while i < |c.delayClicks|
          invariant 0 <= i <= |c.delayClicks|
          invariant rows == RowsOf(c.delayClicks[..i])
        {
          var step := c.delayClicks[i];
          assert c.delayClicks[..i + 1][..i] == c.delayClicks[..i];
          assert RowsOf(c.delayClicks[..i + 1]) == rows + [RowOf(step.delay, step.count)];
          var _ := AddDelayClick(step.delay, step.count);
          i := i + 1;
        }
        assert c.delayClicks[..i] == c.delayClicks;
      } else {
        AddInitialDelayClick();
      }
    }

    // ---- The DelayClick list ----

    /** getDelayClicksData: the steps of the rows, in order, each with a
        non-zero count. */
    method GetDelayClicksData() returns (steps: seq<Step>)
      ensures steps == DelayClicksOf(rows)
      ensures |steps| == |rows| && forall i :: 0 <= i < |steps| ==> steps[i].count != 0
    {
      steps := [];
      var i := 0;
      while i < |rows|
        invariant 0 <= i <= |rows|
        invariant steps == DelayClicksOf(rows[..i])
      {
        assert rows[..i + 1][..i] == rows[..i];
        steps := steps + [ParseRow(rows[i])];
        i := i + 1;
      }
      assert rows[..i] == rows;
      DelayClicksOfRows(rows);
    }

    /** addDelayClick: append the row for (delay, count) and save. */
    method AddDelayClick(delay: int, count: int) returns (saved: SavedConfig)
      modifies this`rows
      ensures rows == old(rows) + [RowOf(delay, count)]
      ensures saved == Snapshot(FormState(), rows, clickCounter)
    {
      rows := rows + [RowOf(delay, count)];
      saved := SaveConfiguration();
    }

    /** The add button: addDelayClick with its default step (0, 1). The new
        last step reads back as (0, 1). */
    method AddDelayClickButton() returns (saved: SavedConfig)
      modifies this`rows
      ensures rows == old(rows) + [RowOf(ADDED_DELAY, ADDED_COUNT)]
      ensures DelayClicksOf(rows) == DelayClicksOf(old(rows)) + [Step(ADDED_DELAY, ADDED_COUNT)]
      ensures saved == Snapshot(FormState(), rows, clickCounter)
    {
      saved := AddDelayClick(ADDED_DELAY, ADDED_COUNT);
      RowRoundTrip(ADDED_DELAY, ADDED_COUNT);
      assert rows[..|rows| - 1] == old(rows);
    }

    /** addInitialDelayClick: an empty list gets the step (0, 10). */
    method AddInitialDelayClick()
      modifies this`rows
      ensures old(rows) == [] ==> rows == [RowOf(INITIAL_DELAY, INITIAL_COUNT)]
      ensures old(rows) != [] ==> rows == old(rows)
    {
      if |rows| == 0 {
        var _ := AddDelayClick(INITIAL_DELAY, INITIAL_COUNT);
      }
    }

    /** The delete button of row i: refused when it is the only row;
        otherwise the row goes and the change is handled as any other. */
    method RemoveDelayClick(i: nat) returns (removed: bool, change: Option<ConfigChange>)
      requires Valid() && i < |rows|
      modifies this`rows, this`isActive, this`status, this`lastClickTime
      ensures Valid()
      ensures removed <==> old(|rows|) > 1
      ensures removed ==> rows == old(rows[..i] + rows[i + 1..]) && change.Some?
      ensures removed ==> change.value.saved == Snapshot(FormState(), rows, clickCounter)
      ensures removed && (isLoading || !old(isActive)) ==>
                change.value.stopSent.None? && isActive == old(isActive) && status == old(status) &&
                Counting() == old(Counting())
      ensures removed && !isLoading && old(isActive) ==>
                change.value.stopSent == Some(StopPayload(FormState())) && !isActive &&
                status == Disconnected && Counting() == ForceStopped(old(Counting()))
      ensures !removed ==> rows == old(rows) && change.None? && Counting() == old(Counting())
      ensures !removed ==> isActive == old(isActive) && status == old(status)
    {
      if |rows| > 1 {
        rows := rows[..i] + rows[i + 1..];
        var c := OnConfigurationChange();
        removed, change := true, Some(c);
      } else {
        removed, change := false, None;
      }
    }

    /** A change event on one of the row's inputs. */
    method EditRow(i: nat, row: Row) returns (change: ConfigChange)
      requires Valid() && i < |rows|
      modifies this`rows, this`isActive, this`status, this`lastClickTime
      ensures Valid() && rows == old(rows)[i := row]
      ensures change.saved == Snapshot(FormState(), rows, clickCounter)
      ensures old(isActive) && !isLoading ==>
                !isActive && status == Disconnected && change.stopSent == Some(StopPayload(FormState())) &&
                Counting() == ForceStopped(old(Counting()))
      ensures !old(isActive) || isLoading ==>
                change.stopSent.None? && isActive == old(isActive) && status == old(status) &&
                Counting() == old(Counting())
    {
      rows := rows[i := row];
      change := OnConfigurationChange();
    }

    /** A change event on the title, mode, interval or unit field. */
    method ChangeForm(f: Form) returns (change: ConfigChange)
      modifies this`windowTitle, this`mode, this`intervalText, this`speedMode,
               this`isActive, this`status, this`lastClickTime
      ensures FormState() == f && change.saved == Snapshot(f, rows, clickCounter)
      ensures old(isActive) && !isLoading ==>
                !isActive && status == Disconnected && change.stopSent == Some(StopPayload(f)) &&
                Counting() == ForceStopped(old(Counting()))
      ensures !old(isActive) || isLoading ==>
                change.stopSent.None? && isActive == old(isActive) && status == old(status) &&
                Counting() == old(Counting())
    {
      windowTitle, mode, intervalText, speedMode := f.windowTitle, f.mode, f.intervalText, f.speedMode;
      assert FormState() == f;
      change := OnConfigurationChange();
    }

    /** saveConfiguration: the snapshot handed to storage. */
    method SaveConfiguration() returns (saved: SavedConfig)
      ensures saved == Snapshot(FormState(), rows, clickCounter)
    {
      var steps := GetDelayClicksData();
      saved := SavedConfig(windowTitle, Some(mode), intervalText, Some(speedMode), steps, clickCounter);
    }

    /** simulateManualTrigger: the total of the step counts, and the walk
        over the steps it schedules from `now`. The counter is not touched. */
    method SimulateManualTrigger(now: int) returns (total: int, trace: seq<Visit>)
      ensures total == TotalClicks(DelayClicksOf(rows))
      ensures trace == Schedule(DelayClicksOf(rows), now)
    {
      var delayClicks := GetDelayClicksData();
      total := TotalClicks(delayClicks);
      trace := [];
      var delayIndex := 0;
      var clock := now;
      while delayIndex < |delayClicks|
        invariant 0 <= delayIndex <= |delayClicks|
        invariant clock == now + Waited(delayClicks[..delayIndex])
        invariant trace == Schedule(delayClicks[..delayIndex], now)
      {
        var current := delayClicks[delayIndex];
        clock := clock + TimerDelay(current.delay);
        assert delayClicks[..delayIndex + 1][..delayIndex] == delayClicks[..delayIndex];
        trace := trace + [Visit(delayIndex, clock, current.delay, current.count)];
        delayIndex := delayIndex + 1;
      }
      assert delayClicks[..delayIndex] == delayClicks;
    }

    // ---- Click counter, CPS tracker, inactivity watchdog ----

    /** startCpsTracking: open the window, rate 0, start the 1 s interval. */
    method StartCpsTracking(now: int)
      modifies this`cpsStartTime, this`currentCps, this`cpsSamplerDue
      ensures Counting() == StartedTracking(old(Counting()), now)
    {
      cpsStartTime := Some(now);
      currentCps := 0.0;
      cpsSamplerDue := Some(now + CPS_PERIOD);
    }

    /** stopCpsTracking: clear the interval and the watchdog, forget the
        window, the rate and the last click. */
    method StopCpsTracking()
      modifies this`cpsSamplerDue, this`inactivityDeadline, this`cpsStartTime,
               this`currentCps, this`lastClickTime
      ensures Counting() == StoppedTracking(old(Counting()))
    {
      if cpsSamplerDue.Some? {
        cpsSamplerDue := None;
      }
      ClearInactivityTimeout();
      cpsStartTime := None;
      currentCps := 0.0;
      lastClickTime := None;
    }

    /** resetInactivityTimeout: a pending watchdog is replaced by one due
        INACTIVITY_LIMIT from now. */
    method ResetInactivityTimeout(now: int)
      modifies this`inactivityDeadline
      ensures Counting() == Rearmed(old(Counting()), now)
    {
      inactivityDeadline := Some(now + INACTIVITY_LIMIT);
    }

    /** clearInactivityTimeout. */
    method ClearInactivityTimeout()
      modifies this`inactivityDeadline
      ensures inactivityDeadline.None?
    {
      if inactivityDeadline.Some? {
        inactivityDeadline := None;
      }
    }

    /** incrementClickCounter: the click is recorded, tracking starts on the
        first click of a burst, the watchdog is re-armed, the counter rises. */
    method IncrementClickCounter(now: int)
      modifies this`clickCounter, this`cpsStartTime, this`lastClickTime,
               this`currentCps, this`cpsSamplerDue, this`inactivityDeadline
      ensures Counting() == Incremented(old(Counting()), now)
    {
      lastClickTime := Some(now);
      if clickCounter == 0 {
        StartCpsTracking(now);
      }
      ResetInactivityTimeout(now);
      clickCounter := clickCounter + 1;
    }

    /** executeDirectClick: the direct-click button counts one click. */
    method ExecuteDirectClick(now: int)
      modifies this`clickCounter, this`cpsStartTime, this`lastClickTime,
               this`currentCps, this`cpsSamplerDue, this`inactivityDeadline
      ensures Counting() == Incremented(old(Counting()), now)
    {
      IncrementClickCounter(now);
    }

    /** resetCounter. */
    method ResetCounter()
      modifies this`clickCounter, this`cpsStartTime, this`lastClickTime,
               this`currentCps, this`cpsSamplerDue, this`inactivityDeadline
      ensures Counting() == Cleared(old(Counting()))
    {
      clickCounter := 0;
      StopCpsTracking();
    }

    /** handleInactivity. */
    method HandleInactivity()
      modifies this`clickCounter, this`cpsStartTime, this`lastClickTime,
               this`currentCps, this`cpsSamplerDue, this`inactivityDeadline
      ensures Counting() == Cleared(old(Counting()))
    {
      clickCounter := 0;
      StopCpsTracking();
    }

    /** calculateAndUpdateCps. */
    method CalculateAndUpdateCps(now: int)
      requires CanSample(Counting(), now)
      modifies this`clickCounter, this`cpsStartTime, this`lastClickTime,
               this`currentCps, this`cpsSamplerDue, this`inactivityDeadline
      ensures Counting() == CpsUpdated(old(Counting()), now)
    {
      if cpsStartTime.None? || clickCounter == 0 {
        currentCps := 0.0;
      } else {
        if lastClickTime.Some? && now - lastClickTime.value >= INACTIVITY_LIMIT {
          HandleInactivity();
          return;
        }
        var timeElapsed := (now - cpsStartTime.value) as real / 1000.0;
        currentCps := clickCounter as real / timeElapsed;
      }
    }

    /** A tick of the CPS interval at `now`. */
    method FireCpsSampler(now: int)
      requires SamplerMayFire(Counting(), now)
      modifies this`clickCounter, this`cpsStartTime, this`lastClickTime,
               this`currentCps, this`cpsSamplerDue, this`inactivityDeadline
      ensures Counting() == Sampled(old(Counting()), now)
    {
      cpsSamplerDue := Some(cpsSamplerDue.value + CPS_PERIOD);
      CalculateAndUpdateCps(now);
    }

    /** The inactivity timeout firing at `now`. */
    method FireInactivityTimer(now: int)
      requires InactivityMayFire(Counting(), now)
      modifies this`clickCounter, this`cpsStartTime, this`lastClickTime,
               this`currentCps, this`cpsSamplerDue, this`inactivityDeadline
      ensures Counting() == Cleared(old(Counting()))
    {
      HandleInactivity();
    }

    /** destroy, on page unload: tracking and the watchdog stop; the
        counter is left as it is. */
    method Destroy()
      modifies this`cpsSamplerDue, this`inactivityDeadline, this`cpsStartTime,
               this`currentCps, this`lastClickTime
      ensures Counting() == StoppedTracking(old(Counting()))
      ensures Counting().samplerDue.None? && Counting().inactivityDeadline.None?
    {
      StopCpsTracking();
    }

    // ---- Session lifecycle ----

    /** startAutoClick. A title that is blank once trimmed is refused before
        anything is sent. Otherwise the start request goes out; an accepted
        one makes the session active and connected (with the timing advisory
        in AUTO mode), a failed one sets the error status and leaves the
        active flag as it was. The counter is never touched. */
    method StartAutoClick(backendOk: bool) returns (o: StartOutcome)
      modifies this`isActive, this`status
      ensures Trim(windowTitle) == [] ==> o == Rejected && isActive == old(isActive) && status == old(status)
      ensures Trim(windowTitle) != [] ==>
                o.Sent? && o.accepted == backendOk &&
                o.payload == StartPayload(FormState(), DelayClicksOf(rows))
      ensures Trim(windowTitle) != [] && backendOk ==> isActive && status == Connected
      ensures Trim(windowTitle) != [] && !backendOk ==> isActive == old(isActive) && status == Error
      ensures o.Sent? && o.accepted && mode == Auto ==> o.warning == WarnAboutTimingLimitations(intervalText, speedMode)
      ensures o.Sent? && !(o.accepted && mode == Auto) ==> o.warning == NoWarning
    {
      if Trim(windowTitle) == [] {
        return Rejected;
      }
      var steps := GetDelayClicksData();
      var autoClickData := StartPayload(FormState(), steps);
      status := Connecting;
      if backendOk {
        isActive := true;
        status := Connected;
        var warning := NoWarning;
        if mode == Auto {
          warning := WarnAboutTimingLimitations(intervalText, speedMode);
        }
        o := Sent(autoClickData, true, warning);
      } else {
        status := Error;
        o := Sent(autoClickData, false, NoWarning);
      }
    }

    /** forceStop: inactive and disconnected, the last click forgotten; the
        counter, the CPS interval and the watchdog keep running. */
    method ForceStop()
      modifies this`isActive, this`status, this`lastClickTime
      ensures !isActive && status == Disconnected
      ensures Counting() == ForceStopped(old(Counting()))
    {
      isActive := false;
      status := Disconnected;
      lastClickTime := None;
    }

    /** stopAutoClick: the stop request goes out (its failure is swallowed),
        then forceStop. Ends inactive and disconnected in every case. */
    method StopAutoClick() returns (stop: Payload)
      modifies this`isActive, this`status, this`lastClickTime
      ensures stop == StopPayload(FormState())
      ensures !isActive && status == Disconnected
      ensures Counting() == ForceStopped(old(Counting()))
    {
      stop := StopPayload(FormState());
      ForceStop();
    }

    /** onConfigurationChange: while loading, only save; otherwise an
        active session is stopped (stop request, then forceStop) and the
        configuration saved; an idle one is only saved. */
    method OnConfigurationChange() returns (change: ConfigChange)
      modifies this`isActive, this`status, this`lastClickTime
      ensures change.saved == Snapshot(FormState(), rows, clickCounter)
      ensures old(isLoading) || !old(isActive) ==>
                change.stopSent.None? && isActive == old(isActive) && status == old(status) &&
                Counting() == old(Counting())
      ensures !old(isLoading) && old(isActive) ==>
                change.stopSent == Some(StopPayload(FormState())) && !isActive && status == Disconnected &&
                Counting() == ForceStopped(old(Counting()))
    {
      if isLoading {
        var saved := SaveConfiguration();
        return ConfigChange(None, saved);
      }
      var stopSent: Option<Payload> := None;
      if isActive {
        stopSent := Some(StopPayload(FormState()));
        ForceStop();
      }
      var saved := SaveConfiguration();
      change := ConfigChange(stopSent, saved);
    }

    /** handleKeyboardShortcuts. Keys typed into a field are ignored. F1
        starts an inactive session, or runs the manual trigger of an active
        KEY session; F2 stops an active session; F3 only shows a notice. */
    method HandleKeyboardShortcuts(key: KeyCode, typingInField: bool, backendOk: bool, now: int)
      returns (o: ShortcutOutcome)
      modifies this`isActive, this`status, this`lastClickTime
      ensures typingInField || key == F3 || key == OtherKey ==>
                o == Ignored && isActive == old(isActive) && status == old(status) &&
                Counting() == old(Counting())
      ensures !typingInField && key == F1 && !old(isActive) ==>
                && o.StartAttempted? && (o.start.Rejected? <==> Trim(windowTitle) == [])
                && (isActive <==> Trim(windowTitle) != [] && backendOk)
                && (Trim(windowTitle) == [] ==> status == old(status))
                && (Trim(windowTitle) != [] ==> status == (if backendOk then Connected else Error))
                && (o.start.Sent? ==> o.start.payload == StartPayload(FormState(), DelayClicksOf(rows)))
                && (o.start.Sent? ==> o.start.accepted == backendOk)
                && (o.start.Sent? ==>
                      o.start.warning ==
                        (if backendOk && mode == Auto then WarnAboutTimingLimitations(intervalText, speedMode) else NoWarning))
                && Counting() == old(Counting())
      ensures !typingInField && key == F1 && old(isActive) ==>
                isActive && status == old(status) && Counting() == old(Counting()) &&
                (mode == Key <==> o.Triggered?) && (mode != Key ==> o == Ignored)
      ensures !typingInField && key == F1 && old(isActive) && mode == Key ==>
                o.total == TotalClicks(DelayClicksOf(rows)) && o.trace == Schedule(DelayClicksOf(rows), now)
      ensures !typingInField && key == F2 && old(isActive) ==>
                o == StopRequested(StopPayload(FormState())) && !isActive && status == Disconnected &&
                Counting() == ForceStopped(old(Counting()))
      ensures !typingInField && key == F2 && !old(isActive) ==>
                o == Ignored && isActive == old(isActive) && status == old(status) &&
                Counting() == old(Counting())
    {
      if typingInField {
        return Ignored;
      }
      match key
      case F1 =>
        if !isActive {
          var s := StartAutoClick(backendOk);
          o := StartAttempted(s);
        } else if mode == Key {
          var total, trace := SimulateManualTrigger(now);
          o := Triggered(total, trace);
        } else {
          o := Ignored;
        }
      case F2 =>
        if isActive {
          var stop := StopAutoClick();
          o := StopRequested(stop);
        } else {
          o := Ignored;
        }
      case F3 =>
        o := Ignored;
      case OtherKey =>
        o := Ignored;
    }
  }
}
