/**
 * The study dashboard of FirstScreen/app/dashboard/page.tsx: the plan arrives
 * in the `result` query parameter, the countdown starts at once and runs down
 * to zero, and the timer turns red in its last minute.
 */
module StudyDashboard {
  import opened Wrappers
  import opened Fences
  import opened Checklist

  /** One interval tick: a countdown above zero loses a second; otherwise no interval runs. */
  function TickDown(countdown: int): (next: int)
    ensures countdown > 0 ==> next == countdown - 1
    ensures countdown <= 0 ==> next == countdown
  {
    if countdown <= 0 then countdown else countdown - 1
  }

  function TicksDown(countdown: int, k: nat): int
  {
    if k == 0 then countdown else TickDown(TicksDown(countdown, k - 1))
  }

  /**
   * Every tick takes exactly one second off until the countdown reaches
   * zero, where it stays.
   */
  lemma {:induction false} CountsDownToZero(countdown: int, k: nat)
    requires countdown >= 0
    ensures TicksDown(countdown, k) == if k <= countdown then countdown - k else 0
  {
    if k > 0 {
      CountsDownToZero(countdown, k - 1);
    }
  }

  /** The colour of the timer text. */
  function TimerColour(countdown: int): (colour: string)
    ensures colour == "red" <==> countdown <= 60
    ensures colour == "black" <==> countdown > 60
  {
    if countdown <= 60 then "red" else "black"
  }

  class Dashboard {
    var plan: Option<Plan>
    var countdown: int
    var checklistState: seq<bool>

    constructor ()
      ensures plan == None && countdown == 0 && checklistState == []
    {
      plan := None;
      countdown := 0;
      checklistState := [];
    }

    /**
     * The parsing effect: `resultRaw` is the query parameter and `parse`
     * stands for `JSON.parse`, None when it throws; a failure is only logged.
     */
    method Load(resultRaw: Option<string>, parse: string -> Option<Plan>)
      modifies this
      ensures resultRaw.None? || resultRaw.value == "" || parse(CleanOnePass(resultRaw.value)).None? ==> unchanged(this)
      ensures resultRaw.Some? && resultRaw.value != "" && parse(CleanOnePass(resultRaw.value)).Some? ==>
        var p := parse(CleanOnePass(resultRaw.value)).value;
        plan == Some(p) && countdown == Seconds(p) && checklistState == Unchecked(|p.checklist|)
    {
      if resultRaw.None? || resultRaw.value == "" {
        return;
      }
      var jsonString := CleanOnePass(resultRaw.value);
      var parsed := parse(jsonString);
      if parsed.None? {
        return;
      }
      plan := parsed;
      countdown := Seconds(parsed.value);
      checklistState := Unchecked(|parsed.value.checklist|);
    }

    /** One interval tick. */
    method Tick()
      modifies this
      ensures countdown == TickDown(old(countdown))
      ensures plan == old(plan) && checklistState == old(checklistState)
    {
      if countdown <= 0 {
        return;
      }
      countdown := countdown - 1;
    }

    /** `toggleChecklistItem`: copies the list and flips one slot. */
    method ToggleChecklistItem(index: nat)
      requires index < |checklistState|
      modifies this
      ensures checklistState == Toggle(old(checklistState), index)
      ensures plan == old(plan) && countdown == old(countdown)
    {
      var updated := checklistState;
      updated := updated[index := !updated[index]];
      checklistState := updated;
    }
  }
}
