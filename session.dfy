/** The records the session hands to its collaborators: the start and stop
    requests for the automation backend, and the configuration snapshot
    saved to and loaded from the browser's storage. */
module Session {
  import opened Text
  import opened Interval
  import opened DelayClicks

  /** The mode select. */
  datatype Mode = Key | Mouse | Auto | Manual

  /** The status indicator. */
  datatype Status = Disconnected | Connecting | Connected | Error

  /** The JSON body of a request to the backend's start endpoint. */
  datatype Payload = Payload(title: string, mode: Mode, interval: int, speedMode: SpeedMode, delayClicks: seq<Step>)

  /** The four form fields besides the DelayClick list. */
  datatype Form = Form(windowTitle: string, mode: Mode, intervalText: string, speedMode: SpeedMode)

  /** A stored configuration, already parsed. A falsy field (missing or
      empty) is None, or the empty string for the text fields. */
  datatype SavedConfig = SavedConfig(
    windowTitle: string,
    mode: Option<Mode>,
    interval: string,
    speedMode: Option<SpeedMode>,
    delayClicks: seq<Step>,
    clickCounter: int)

  /** The title sent when the form's title is blank. */
  const STOP_TITLE: string := "dummy"

  /** The start request built once the title passed validation: the trimmed
      title, the interval read with `parseInt(...) || 100`, the steps. */
  function StartPayload(f: Form, steps: seq<Step>): (p: Payload)
    requires Trim(f.windowTitle) != []
    ensures p.title != [] && |p.title| <= |f.windowTitle|
    ensures p.title == Trim(f.windowTitle)
    ensures p.interval != 0
    ensures p.interval == ParseIntOr(f.intervalText, DEFAULT_INTERVAL)
    ensures p.mode == f.mode && p.speedMode == f.speedMode && p.delayClicks == steps
  {
    Payload(Trim(f.windowTitle), f.mode, ParseIntOr(f.intervalText, DEFAULT_INTERVAL), f.speedMode, steps)
  }

  /** The title sent to start a session is already trimmed: trimming it
      again changes nothing. */
  lemma StartPayloadTitleTrimmed(f: Form, steps: seq<Step>)
    requires Trim(f.windowTitle) != []
    ensures Trim(StartPayload(f, steps).title) == StartPayload(f, steps).title
  {
    TrimIdempotent(f.windowTitle);
  }

  /** sendStopConfiguration's request: a one-step plan of zero clicks at a
      1 ms interval, so that the backend stops clicking. Its title is never
      blank: the trimmed title, or "dummy". */
  function StopPayload(f: Form): (p: Payload)
    ensures |p.delayClicks| == 1 && TotalClicks(p.delayClicks) == 0
    ensures p.delayClicks[0] == Step(0, 0) && p.interval == 1 && p.speedMode == MS
    ensures p.title != [] && Trim(p.title) == p.title
    ensures Trim(f.windowTitle) != [] ==> p.title == Trim(f.windowTitle)
    ensures Trim(f.windowTitle) == [] ==> p.title == STOP_TITLE
    ensures p.mode == f.mode
  {
    TrimIdempotent(f.windowTitle);
    var title := if Trim(f.windowTitle) != [] then Trim(f.windowTitle) else STOP_TITLE;
    Payload(title, f.mode, 1, MS, [Step(0, 0)])
  }

  /** The snapshot saveConfiguration stores: the form as it stands, the
      steps read from the rows and the counter. */
  function Snapshot(f: Form, rows: seq<Row>, clickCounter: int): SavedConfig
  {
    SavedConfig(f.windowTitle, Some(f.mode), f.intervalText, Some(f.speedMode), DelayClicksOf(rows), clickCounter)
  }

  /** loadConfiguration's defaults for the form fields: an empty title stays
      empty, no mode is KEY, an empty interval is "100", no unit is MS. The
      substituted "100" reads as the same interval the empty text did. */
  function LoadedForm(c: SavedConfig): (f: Form)
    ensures f.intervalText != []
    ensures ParseIntOr(f.intervalText, DEFAULT_INTERVAL) == ParseIntOr(c.interval, DEFAULT_INTERVAL)
    ensures c.interval != [] ==> f.intervalText == c.interval
    ensures c.interval == [] ==> f.intervalText == IntToString(DEFAULT_INTERVAL)
    ensures f.windowTitle == c.windowTitle
    ensures c.mode.None? ==> f.mode == Key
    ensures c.mode.Some? ==> f.mode == c.mode.value
    ensures c.speedMode.None? ==> f.speedMode == MS
    ensures c.speedMode.Some? ==> f.speedMode == c.speedMode.value
  {
    ParseIntRoundTrip(DEFAULT_INTERVAL);
    Form(
      c.windowTitle,
      if c.mode.Some? then c.mode.value else Key,
      if c.interval == [] then IntToString(DEFAULT_INTERVAL) else c.interval,
      if c.speedMode.Some? then c.speedMode.value else MS)
  }

  /** The rows loadConfiguration renders: one per saved step, in order, or
      the initial step when none was saved. */
  function LoadedRows(c: SavedConfig): seq<Row>
  {
    if |c.delayClicks| > 0 then RowsOf(c.delayClicks) else [RowOf(INITIAL_DELAY, INITIAL_COUNT)]
  }

  /** Loading gives a non-empty list whose steps read back as the saved
      ones, in order (a saved count of 0 reading back as 1), or as the
      initial step when none was saved. */
  lemma LoadedRowsReadBack(c: SavedConfig)
    ensures |LoadedRows(c)| >= 1
    ensures |c.delayClicks| > 0 ==> |DelayClicksOf(LoadedRows(c))| == |c.delayClicks|
    ensures forall i :: 0 <= i < |c.delayClicks| ==>
              DelayClicksOf(LoadedRows(c))[i] ==
                Step(c.delayClicks[i].delay, if c.delayClicks[i].count == 0 then 1 else c.delayClicks[i].count)
    ensures c.delayClicks == [] ==> DelayClicksOf(LoadedRows(c)) == [Step(INITIAL_DELAY, INITIAL_COUNT)]
  {
    if |c.delayClicks| > 0 {
      RowsReadBack(c.delayClicks);
    } else {
      RowRoundTrip(INITIAL_DELAY, INITIAL_COUNT);
      assert [RowOf(INITIAL_DELAY, INITIAL_COUNT)][..0] == [];
    }
  }

  /** What is saved loads back as the same plan: the steps read from the
      reloaded rows are the steps read from the saved rows. */
  lemma SaveLoadRoundTrip(f: Form, rows: seq<Row>, clickCounter: int)
    requires |rows| >= 1
    ensures DelayClicksOf(LoadedRows(Snapshot(f, rows, clickCounter))) == DelayClicksOf(rows)
  {
    var steps := DelayClicksOf(rows);
    assert LoadedRows(Snapshot(f, rows, clickCounter)) == RowsOf(steps);
    DelayClicksOfRows(rows);
    RowsReadBack(steps);
    forall i | 0 <= i < |steps|
      ensures DelayClicksOf(RowsOf(steps))[i] == steps[i]
    {
      assert steps[i].count != 0;
    }
  }

  /** ... and as the same form: title, mode, unit, and an interval text
      that gives the same period; the counter is saved as it was. */
  lemma SaveLoadForm(f: Form, rows: seq<Row>, clickCounter: int)
    ensures var c := Snapshot(f, rows, clickCounter);
            && LoadedForm(c).windowTitle == f.windowTitle
            && LoadedForm(c).mode == f.mode && LoadedForm(c).speedMode == f.speedMode
            && GetActualInterval(LoadedForm(c).intervalText, f.speedMode) == GetActualInterval(f.intervalText, f.speedMode)
            && c.clickCounter == clickCounter
  {
  }
}
