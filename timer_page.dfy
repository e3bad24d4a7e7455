/**
 * The study dashboard of page.tsx: the plan arrives fenced in the `data`
 * query parameter, a pausable countdown runs one tick per second, and when it
 * reaches zero the page reports how many tasks were ticked off.
 */
module TimerPage {
  import opened Wrappers
  import opened Fences
  import opened Checklist

  /** The query string the page navigates to when the countdown ends. */
  datatype Report = Report(completed: nat, total: nat)

  /** `timeLeft` and `isRunning`. */
  datatype Countdown = Countdown(timeLeft: int, running: bool)

  /** The effect schedules the interval only while running with time left. */
  predicate Scheduled(c: Countdown) {
    c.running && c.timeLeft > 0
  }

  /** The tick that ends the countdown: `prev <= 1`. */
  predicate Finishing(c: Countdown) {
    Scheduled(c) && c.timeLeft <= 1
  }

  /** One interval tick; without a scheduled interval nothing happens. */
  function NextSecond(c: Countdown): (d: Countdown)
    ensures !Scheduled(c) ==> d == c
    ensures Scheduled(c) && !Finishing(c) ==> d == Countdown(c.timeLeft - 1, true)
    ensures Finishing(c) ==> d == Countdown(0, false)
    ensures d.timeLeft <= c.timeLeft || !Scheduled(c)
  {
    if !Scheduled(c) then c
    else if c.timeLeft <= 1 then Countdown(0, false)
    else Countdown(c.timeLeft - 1, true)
  }

  /** The countdown after `k` interval ticks. */
  function RunFor(c: Countdown, k: nat): Countdown
  {
    if k == 0 then c else NextSecond(RunFor(c, k - 1))
  }

  /**
   * A running countdown of n seconds runs for exactly n ticks: after k < n
   * ticks n - k seconds are left and it still runs, after n it shows 0 and
   * has stopped, and from then on nothing changes.
   */
  lemma {:induction false} RunsDown(n: int, k: nat)
    requires n > 0
    ensures k < n ==> RunFor(Countdown(n, true), k) == Countdown(n - k, true)
    ensures k >= n ==> RunFor(Countdown(n, true), k) == Countdown(0, false)
  {
    if k > 0 {
      RunsDown(n, k - 1);
    }
  }

  /** The (k+1)-th tick is the finishing one exactly when k + 1 == n. */
  lemma FinishesOnce(n: int, k: nat)
    requires n > 0
    ensures Finishing(RunFor(Countdown(n, true), k)) <==> k == n - 1
  {
    RunsDown(n, k);
  }

  /** The button: "Pause" while running, otherwise "Finished" at 0 and "Start" before. */
  function ButtonLabel(c: Countdown): (caption: string)
    ensures caption == "Pause" <==> c.running
    ensures caption == "Finished" <==> !c.running && c.timeLeft == 0
    ensures caption == "Start" <==> !c.running && c.timeLeft != 0
  {
    if c.running then "Pause" else if c.timeLeft == 0 then "Finished" else "Start"
  }

  /**
   * The plan the loading effect reads from the `data` parameter: decoded,
   * cleaned of code fences and parsed; None when the parameter is missing or
   * empty, or decoding or parsing throws.
   */
  function LoadedPlan(data: Option<string>, decode: string -> Option<string>, parse: string -> Option<Plan>): (p: Option<Plan>)
    ensures p.Some? <==>
      data.Some? && data.value != "" && decode(data.value).Some? && parse(CleanTwoPass(decode(data.value).value)).Some?
    ensures p.Some? ==> p == parse(CleanTwoPass(decode(data.value).value))
  {
    if data.None? || data.value == "" then None
    else match decode(data.value)
      case None => None
      case Some(text) => parse(CleanTwoPass(text))
  }

  class Page {
    var plan: Option<Plan>
    var timeLeft: int
    var running: bool
    var checked: seq<bool>
    var initialTime: int
    var pushed: Option<Report>

    /** The initial `useState` values. */
    constructor ()
      ensures plan == None && timeLeft == 0 && !running && checked == [] && initialTime == 0 && pushed == None
    {
      plan := None;
      timeLeft := 0;
      running := false;
      checked := [];
      initialTime := 0;
      pushed := None;
    }

    function State(): Countdown
      reads this
    {
      Countdown(timeLeft, running)
    }

    /**
     * The loading effect. `data` is the query parameter, `decode` stands for
     * `decodeURIComponent` and `parse` for `JSON.parse`; either is None when
     * it throws, and then the error is only logged.
     */
    method Load(data: Option<string>, decode: string -> Option<string>, parse: string -> Option<Plan>)
      modifies this
      ensures LoadedPlan(data, decode, parse).None? ==> unchanged(this)
      ensures LoadedPlan(data, decode, parse).Some? ==>
        && plan == LoadedPlan(data, decode, parse)
        && timeLeft == Seconds(plan.value) && initialTime == timeLeft
        && checked == Unchecked(|plan.value.checklist|)
      ensures running == old(running) && pushed == old(pushed)
    {
      var parsed := LoadedPlan(data, decode, parse);
      if parsed.Some? {
        Start(parsed.value);
      }
    }

    /** The state updates of a successful load: the plan, the countdown and fresh check boxes. */
    method Start(p: Plan)
      modifies this
      ensures plan == Some(p) && timeLeft == Seconds(p) && initialTime == Seconds(p)
      ensures checked == Unchecked(|p.checklist|)
      ensures running == old(running) && pushed == old(pushed)
    {
      plan := Some(p);
      var totalSeconds := Seconds(p);
      timeLeft := totalSeconds;
      initialTime := totalSeconds;
      checked := Unchecked(|p.checklist|);
    }

    /**
     * One interval tick. The finishing tick stops the timer and navigates
     * with the number of ticked tasks and the number of tasks.
     */
    method Tick()
      modifies this
      ensures State() == NextSecond(old(State()))
      ensures Finishing(old(State())) ==> pushed == Some(Report(Completed(checked), |checked|))
      ensures !Finishing(old(State())) ==> pushed == old(pushed)
      ensures plan == old(plan) && checked == old(checked) && initialTime == old(initialTime)
    {
      if !running || timeLeft <= 0 {
        return;
      }
      if timeLeft <= 1 {
        running := false;
        var completedTasks := Completed(checked);
        var totalTasks := |checked|;
        pushed := Some(Report(completedTasks, totalTasks));
        timeLeft := 0;
      } else {
        timeLeft := timeLeft - 1;
      }
    }

    /** `toggleTimer`. */
    method ToggleTimer()
      modifies this
      ensures running == !old(running)
      ensures timeLeft == old(timeLeft) && plan == old(plan) && checked == old(checked)
      ensures initialTime == old(initialTime) && pushed == old(pushed)
    {
      running := !running;
    }

    /** `handleCheckboxChange`. */
    method ToggleTask(index: int)
      modifies this
      ensures checked == Toggle(old(checked), index)
      ensures timeLeft == old(timeLeft) && running == old(running) && plan == old(plan)
      ensures initialTime == old(initialTime) && pushed == old(pushed)
    {
      checked := Toggle(checked, index);
    }
  }
}
