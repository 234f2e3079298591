/** The ordered DelayClick list: the rows of the form as text, the steps
    read from them (getDelayClicksData), the total click count of a manual
    trigger and the timers its step walk waits on. */
module DelayClicks {
  import opened Text

  /** One step of the click plan: wait `delay` ms, then `count` clicks. */
  datatype Step = Step(delay: int, count: int)

  /** One row of the list as the form holds it: the text of its two inputs. */
  datatype Row = Row(delayText: string, countText: string)

  /** The step the add button appends. */
  const ADDED_DELAY: int := 0
  const ADDED_COUNT: int := 1

  /** The step an empty list is given at start-up. */
  const INITIAL_DELAY: int := 0
  const INITIAL_COUNT: int := 10

  /** The row addDelayClick renders for (delay, count): both numbers become
      the text of their inputs. */
  function RowOf(delay: int, count: int): Row
  {
    Row(IntToString(delay), IntToString(count))
  }

  /** The step getDelayClicksData reads from one row: the delay with
      `parseInt(...) || 0`, the count with `parseInt(...) || 1`. */
  function ParseRow(row: Row): (s: Step)
    ensures s.count != 0
    ensures ParseInt(row.delayText).None? ==> s.delay == 0
    ensures ParseInt(row.countText).None? || ParseInt(row.countText) == Some(0) ==> s.count == 1
    ensures ParseInt(row.delayText).Some? ==> s.delay == ParseInt(row.delayText).value
    ensures ParseInt(row.countText).Some? && ParseInt(row.countText).value != 0 ==>
              s.count == ParseInt(row.countText).value
  {
    Step(ParseIntOr(row.delayText, 0), ParseIntOr(row.countText, 1))
  }

  /** A rendered row reads back as the step it was rendered from, except
      that a count of 0 reads back as 1. */
  lemma RowRoundTrip(delay: int, count: int)
    ensures ParseRow(RowOf(delay, count)) == Step(delay, if count == 0 then 1 else count)
  {
    ParseIntRoundTrip(delay);
    ParseIntRoundTrip(count);
  }

  /** The steps of a list of rows, in list order. */
  function DelayClicksOf(rows: seq<Row>): (steps: seq<Step>)
    ensures |steps| == |rows|
  {
    if rows == [] then [] else DelayClicksOf(rows[..|rows| - 1]) + [ParseRow(rows[|rows| - 1])]
  }

  /** Step i of the list is read from row i, and never has a zero count. */
  lemma {:induction false} DelayClicksOfRows(rows: seq<Row>)
    ensures forall i :: 0 <= i < |rows| ==> DelayClicksOf(rows)[i] == ParseRow(rows[i])
    ensures forall i :: 0 <= i < |rows| ==> DelayClicksOf(rows)[i].count != 0
  {
    if rows != [] {
      DelayClicksOfRows(rows[..|rows| - 1]);
    }
  }

  /** The rows addDelayClick renders for a list of steps, one per step,
      in order. */
  function RowsOf(steps: seq<Step>): (rows: seq<Row>)
    ensures |rows| == |steps|
  {
    if steps == [] then []
    else RowsOf(steps[..|steps| - 1]) + [RowOf(steps[|steps| - 1].delay, steps[|steps| - 1].count)]
  }

  /** Row i of the rendering is the row of step i. */
  lemma {:induction false} RowsOfSteps(steps: seq<Step>)
    ensures forall i :: 0 <= i < |steps| ==> RowsOf(steps)[i] == RowOf(steps[i].delay, steps[i].count)
  {
    if steps != [] {
      var init := steps[..|steps| - 1];
      RowsOfSteps(init);
      forall i | 0 <= i < |init|
        ensures RowsOf(steps)[i] == RowOf(steps[i].delay, steps[i].count)
      {
        assert init[i] == steps[i];
      }
    }
  }

  /** Rendering steps and reading the rows back gives the same steps, in the
      same order, except that a count of 0 reads back as 1. */
  lemma RowsReadBack(steps: seq<Step>)
    ensures |DelayClicksOf(RowsOf(steps))| == |steps|
    ensures forall i :: 0 <= i < |steps| ==>
              DelayClicksOf(RowsOf(steps))[i] == Step(steps[i].delay, if steps[i].count == 0 then 1 else steps[i].count)
  {
    RowsOfSteps(steps);
    DelayClicksOfRows(RowsOf(steps));
    forall i | 0 <= i < |steps|
      ensures DelayClicksOf(RowsOf(steps))[i] == Step(steps[i].delay, if steps[i].count == 0 then 1 else steps[i].count)
    {
      RowRoundTrip(steps[i].delay, steps[i].count);
    }
  }

  /** `delayClicks.reduce((sum, dc) => sum + dc.count, 0)`: a left fold. */
  function TotalClicks(steps: seq<Step>): int
  {
    if steps == [] then 0 else TotalClicks(steps[..|steps| - 1]) + steps[|steps| - 1].count
  }

  /** The total is additive over a split of the list. */
  lemma {:induction false} TotalClicksAppend(a: seq<Step>, b: seq<Step>)
    ensures TotalClicks(a + b) == TotalClicks(a) + TotalClicks(b)
    decreases |b|
  {
    if b == [] {
      assert a + b == a;
    } else {
      var b' := b[..|b| - 1];
      assert (a + b)[..|a + b| - 1] == a + b';
      TotalClicksAppend(a, b');
    }
  }

  /** A list whose every count is positive has at least one click per step. */
  lemma {:induction false} TotalClicksAtLeastLength(steps: seq<Step>)
    requires forall i :: 0 <= i < |steps| ==> steps[i].count >= 1
    ensures TotalClicks(steps) >= |steps|
  {
    if steps != [] {
      TotalClicksAtLeastLength(steps[..|steps| - 1]);
    }
  }

  /** setTimeout's delay is a WebIDL `long`: it is first reduced modulo
      2^32 to a signed 32-bit integer, and a negative result counts as 0. */
  function TimerDelay(delay: int): (d: nat)
    ensures d < 0x8000_0000
    ensures 0 <= delay < 0x8000_0000 ==> d == delay
    ensures -0x8000_0000 <= delay < 0 ==> d == 0
    ensures d == 0 || (delay - d) % 0x1_0000_0000 == 0
  {
    var w := delay % 0x1_0000_0000;
    if w >= 0x8000_0000 then 0 else w
  }

  /** The time a walk over `steps` spends in their timers. */
  function Waited(steps: seq<Step>): nat
  {
    if steps == [] then 0 else Waited(steps[..|steps| - 1]) + TimerDelay(steps[|steps| - 1].delay)
  }

  /** A longer prefix of the walk has waited at least as long. */
  lemma {:induction false} WaitedMonotonic(steps: seq<Step>, i: nat, j: nat)
    requires i <= j <= |steps|
    ensures Waited(steps[..i]) <= Waited(steps[..j])
    decreases j
  {
    if i < j {
      assert steps[..j][..j - 1] == steps[..j - 1];
      WaitedMonotonic(steps, i, j - 1);
    }
  }

  /** One visit of the manual-trigger walk: step `index`, reached at time
      `at`, with the delay and count it hands on. */
  datatype Visit = Visit(index: nat, at: int, delay: int, count: int)

  /** The walk simulateManualTrigger schedules from time `start`: the steps
      in order, each reached once its own timer has run after the previous
      one. */
  function Schedule(steps: seq<Step>, start: int): (trace: seq<Visit>)
    ensures |trace| == |steps|
  {
    if steps == [] then []
    else
      var last := steps[|steps| - 1];
      Schedule(steps[..|steps| - 1], start) + [Visit(|steps| - 1, start + Waited(steps), last.delay, last.count)]
  }

  /** Visit i is step i, with its delay and count, reached when the timers
      of steps 0..i have all run. */
  lemma {:induction false} ScheduleVisits(steps: seq<Step>, start: int)
    ensures forall i :: 0 <= i < |steps| ==>
              Schedule(steps, start)[i] == Visit(i, start + Waited(steps[..i + 1]), steps[i].delay, steps[i].count)
  {
    if steps != [] {
      var init := steps[..|steps| - 1];
      ScheduleVisits(init, start);
      assert steps[..|steps|] == steps;
      forall i | 0 <= i < |init|
        ensures init[i] == steps[i] && init[..i + 1] == steps[..i + 1]
      {
        assert init[..i + 1] == steps[..i + 1];
      }
    }
  }

  /** Each visit comes exactly its own step's timer after the previous one. */
  lemma ScheduleSpacing(steps: seq<Step>, start: int)
    ensures var trace := Schedule(steps, start);
            forall i :: 0 < i < |trace| ==> trace[i].at == trace[i - 1].at + TimerDelay(steps[i].delay)
  {
    ScheduleVisits(steps, start);
    forall i | 0 < i < |steps|
      ensures Waited(steps[..i + 1]) == Waited(steps[..i]) + TimerDelay(steps[i].delay)
    {
      assert steps[..i + 1][..i] == steps[..i];
    }
  }

  /** The walk never goes back in time: a later visit is never earlier. */
  lemma ScheduleOrdered(steps: seq<Step>, start: int)
    ensures var trace := Schedule(steps, start);
            forall i, j :: 0 <= i <= j < |trace| ==> trace[i].at <= trace[j].at
  {
    var trace := Schedule(steps, start);
    ScheduleVisits(steps, start);
    forall i, j | 0 <= i <= j < |trace|
      ensures trace[i].at <= trace[j].at
    {
      WaitedMonotonic(steps, i + 1, j + 1);
    }
  }
}
