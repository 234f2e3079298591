/** The click counter, the clicks-per-second tracker and the inactivity
    watchdog, as a value and the transitions the app's methods make on it.
    Timers are data: `samplerDue` is the next tick of the 1 s CPS interval
    (None once the interval is cleared) and `inactivityDeadline` the time the
    pending inactivity timeout fires (None once it is cleared). Times are
    milliseconds of the wall clock. */
module Counter {
  import opened Text

  /** Quiet time after which the counter and CPS are reset. */
  const INACTIVITY_LIMIT: int := 5000

  /** Period of the CPS sampler. */
  const CPS_PERIOD: int := 1000

  datatype Tracker = Tracker(
    clickCounter: int,
    cpsStartTime: Option<int>,
    lastClickTime: Option<int>,
    currentCps: real,
    samplerDue: Option<int>,
    inactivityDeadline: Option<int>)

  /** Nothing counted, no timer pending. */
  const Idle: Tracker := Tracker(0, None, None, 0.0, None, None)

  /** The state every operation keeps: a click burst is in progress (the
      counter is positive) exactly when the sampler runs, exactly when a
      window start is recorded, exactly when the watchdog is armed; the
      sampler never ticks before one period into the window; the rate is
      never negative and is 0 outside a burst. */
  predicate Consistent(t: Tracker)
  {
    && t.clickCounter >= 0
    && (t.clickCounter > 0 <==> t.samplerDue.Some?)
    && (t.cpsStartTime.Some? <==> t.samplerDue.Some?)
    && (t.inactivityDeadline.Some? <==> t.samplerDue.Some?)
    && (t.samplerDue.Some? ==> t.samplerDue.value >= t.cpsStartTime.value + CPS_PERIOD)
    && t.currentCps >= 0.0
    && (t.samplerDue.None? ==> t.currentCps == 0.0)
  }

  /** startCpsTracking: open the window now, rate 0, start the sampler. */
  function StartedTracking(t: Tracker, now: int): Tracker
  {
    t.(cpsStartTime := Some(now), currentCps := 0.0, samplerDue := Some(now + CPS_PERIOD))
  }

  /** stopCpsTracking: clear the sampler and the watchdog, forget the
      window, the rate and the last click. The counter is not touched. */
  function StoppedTracking(t: Tracker): Tracker
  {
    t.(samplerDue := None, inactivityDeadline := None, cpsStartTime := None,
       currentCps := 0.0, lastClickTime := None)
  }

  /** resetInactivityTimeout: replace any pending watchdog by one due
      INACTIVITY_LIMIT from now. */
  function Rearmed(t: Tracker, now: int): Tracker
  {
    t.(inactivityDeadline := Some(now + INACTIVITY_LIMIT))
  }

  /** incrementClickCounter at time `now`. */
  function Incremented(t: Tracker, now: int): (u: Tracker)
    ensures u.clickCounter == t.clickCounter + 1
    ensures u.lastClickTime == Some(now)
    ensures u.inactivityDeadline == Some(now + INACTIVITY_LIMIT)
    ensures t.clickCounter == 0 ==>
              u.cpsStartTime == Some(now) && u.currentCps == 0.0 && u.samplerDue == Some(now + CPS_PERIOD)
    ensures t.clickCounter != 0 ==>
              u.cpsStartTime == t.cpsStartTime && u.currentCps == t.currentCps && u.samplerDue == t.samplerDue
    ensures Consistent(t) ==> Consistent(u)
    ensures Consistent(t) ==> (u.samplerDue != t.samplerDue <==> t.samplerDue.None?)
  {
    var clicked := t.(lastClickTime := Some(now));
    var tracked := if t.clickCounter == 0 then StartedTracking(clicked, now) else clicked;
    Rearmed(tracked, now).(clickCounter := t.clickCounter + 1)
  }

  /** resetCounter and handleInactivity: counter to 0, then stopCpsTracking. */
  function Cleared(t: Tracker): (u: Tracker)
    ensures u == Idle && Consistent(u)
  {
    StoppedTracking(t.(clickCounter := 0))
  }

  /** The rate calculateAndUpdateCps stores: clicks over elapsed seconds. */
  function Rate(clicks: int, elapsedMs: int): (cps: real)
    requires elapsedMs != 0
    ensures cps * (elapsedMs as real / 1000.0) == clicks as real
    ensures clicks > 0 && elapsedMs > 0 ==> cps > 0.0
  {
    clicks as real / (elapsedMs as real / 1000.0)
  }

  /** The sample may divide by the elapsed time: it is taken after the
      window opened. */
  predicate CanSample(t: Tracker, now: int)
  {
    t.cpsStartTime.Some? ==> t.cpsStartTime.value < now
  }

  /** Whether the quiet time since the last click has reached the limit. */
  predicate QuietTooLong(t: Tracker, now: int)
  {
    t.lastClickTime.Some? && now - t.lastClickTime.value >= INACTIVITY_LIMIT
  }

  /** calculateAndUpdateCps at time `now`. Outside a burst the rate is 0;
      after a quiet period of INACTIVITY_LIMIT since the last click
      everything is reset and no rate is computed; otherwise the rate is the
      count over the seconds since the window opened. */
  function CpsUpdated(t: Tracker, now: int): (u: Tracker)
    requires CanSample(t, now)
    ensures t.cpsStartTime.None? || t.clickCounter == 0 ==> u == t.(currentCps := 0.0)
    ensures t.cpsStartTime.Some? && t.clickCounter != 0 && QuietTooLong(t, now) ==> u == Idle
    ensures t.cpsStartTime.Some? && t.clickCounter != 0 && !QuietTooLong(t, now) ==>
              && u == t.(currentCps := u.currentCps)
              && u.currentCps * ((now - t.cpsStartTime.value) as real / 1000.0) == t.clickCounter as real
  {
    if t.cpsStartTime.None? || t.clickCounter == 0 then t.(currentCps := 0.0)
    else if QuietTooLong(t, now) then Cleared(t)
    else t.(currentCps := Rate(t.clickCounter, now - t.cpsStartTime.value))
  }

  /** The CPS interval may tick at `now`: it runs and its tick is due. */
  predicate SamplerMayFire(t: Tracker, now: int)
  {
    t.samplerDue.Some? && now >= t.samplerDue.value && CanSample(t, now)
  }

  /** One tick of the CPS interval: the next tick is scheduled one period
      later, then calculateAndUpdateCps runs. */
  function Sampled(t: Tracker, now: int): (u: Tracker)
    requires SamplerMayFire(t, now)
    ensures u.clickCounter == t.clickCounter || u == Idle
    ensures Consistent(t) ==> Consistent(u)
    ensures Consistent(t) && !QuietTooLong(t, now) ==>
              u.clickCounter == t.clickCounter && u.currentCps > 0.0 &&
              u.samplerDue == Some(t.samplerDue.value + CPS_PERIOD)
  {
    CpsUpdated(t.(samplerDue := Some(t.samplerDue.value + CPS_PERIOD)), now)
  }

  /** The inactivity timeout may fire at `now`: it is armed and due. */
  predicate InactivityMayFire(t: Tracker, now: int)
  {
    t.inactivityDeadline.Some? && now >= t.inactivityDeadline.value
  }

  /** forceStop's effect on the tracker: only the last click is forgotten;
      the counter, the window, the sampler and the watchdog stay. */
  function ForceStopped(t: Tracker): (u: Tracker)
    ensures u.lastClickTime.None?
    ensures u.clickCounter == t.clickCounter && u.cpsStartTime == t.cpsStartTime && u.currentCps == t.currentCps
    ensures u.samplerDue == t.samplerDue && u.inactivityDeadline == t.inactivityDeadline
    ensures Consistent(t) ==> Consistent(u)
  {
    t.(lastClickTime := None)
  }

  /** loadConfiguration's effect on a tracker: the saved counter, and for a
      positive one tracking and the watchdog started at load time. */
  function LoadedOnto(t: Tracker, counter: int, now: int): Tracker
  {
    var u := t.(clickCounter := counter);
    if counter > 0 then Rearmed(StartedTracking(u, now), now) else u
  }

  /** loadConfiguration's effect on the fresh tracker of start-up (no last
      click is recorded). */
  function Loaded(counter: int, now: int): (u: Tracker)
    ensures u.clickCounter == counter && u.lastClickTime.None?
    ensures counter >= 0 ==> Consistent(u)
    ensures counter > 0 ==>
              u.cpsStartTime == Some(now) && u.inactivityDeadline == Some(now + INACTIVITY_LIMIT)
    ensures counter > 0 ==> u.currentCps == 0.0 && u.samplerDue == Some(now + CPS_PERIOD)
    ensures counter <= 0 ==> u == Idle.(clickCounter := counter)
  {
    LoadedOnto(Idle, counter, now)
  }

  /** The tracker after clicks at the given times, in order. */
  function Clicks(t: Tracker, times: seq<int>): Tracker
    decreases |times|
  {
    if times == [] then t else Clicks(Incremented(t, times[0]), times[1..])
  }

  /** N clicks count N; the last click is the last time; the watchdog is due
      INACTIVITY_LIMIT after it; the window of a burst opens at its first
      click and is never reopened by the later ones. */
  lemma {:induction false} ClicksCount(t: Tracker, times: seq<int>)
    requires Consistent(t)
    ensures Consistent(Clicks(t, times))
    ensures Clicks(t, times).clickCounter == t.clickCounter + |times|
    ensures times != [] ==>
              && Clicks(t, times).lastClickTime == Some(times[|times| - 1])
              && Clicks(t, times).inactivityDeadline == Some(times[|times| - 1] + INACTIVITY_LIMIT)
    ensures times != [] && t.clickCounter == 0 ==> Clicks(t, times).cpsStartTime == Some(times[0])
    ensures t.clickCounter > 0 ==> Clicks(t, times).cpsStartTime == t.cpsStartTime
    decreases |times|
  {
    if times != [] {
      var next := Incremented(t, times[0]);
      ClicksCount(next, times[1..]);
      if |times| > 1 {
        assert times[1..][|times[1..]| - 1] == times[|times| - 1];
      }
    }
  }

  /** After a click at `clickedAt`, with no further click: at any time
      `now` INACTIVITY_LIMIT or more later, both the watchdog and the
      sampler (whichever fires) reset the tracker; before that, neither
      can reset it. */
  lemma QuietPeriodResets(t: Tracker, clickedAt: int, now: int)
    requires Consistent(t)
    ensures var u := Incremented(t, clickedAt);
            && (InactivityMayFire(u, now) <==> now >= clickedAt + INACTIVITY_LIMIT)
            && (now >= clickedAt + INACTIVITY_LIMIT && SamplerMayFire(u, now) ==> Sampled(u, now) == Idle)
            && (now < clickedAt + INACTIVITY_LIMIT && SamplerMayFire(u, now) ==>
                  Sampled(u, now).clickCounter == u.clickCounter)
  {
  }
}
