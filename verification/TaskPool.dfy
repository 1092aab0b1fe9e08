/**
 * The plan list (`TaskPool`): plans are appended, and looked up either as
 * the latest one (a null date) or as the earliest one for a given date.
 */
module Plans {
  import opened Wrappers
  import opened Model

  /** The exceptions the lookup can end in. */
  datatype LookupError =
    | NoSuchElement  // `Optional.get()` on an empty result
    | NullPointer    // `getTaskDate().equals(...)` on a plan whose date is null

  /** The plans before index `i` all carry a date, and none of them is `date`. */
  predicate PassedOver(plans: seq<TaskPlan>, date: Option<int>, i: int)
  {
    0 <= i <= |plans| && forall j :: 0 <= j < i ==> plans[j].taskDate.Some? && plans[j].taskDate != date
  }

  /**
   * `stream().filter(x -> x.getTaskDate().equals(date)).findFirst().get()`:
   * the first plan dated `date`; the scan stops with a null pointer at the
   * first plan without a date, and finding nothing ends in NoSuchElement.
   */
  function FirstPlanDated(plans: seq<TaskPlan>, date: Option<int>): (r: Result<TaskPlan, LookupError>)
    ensures r.Success? <==> exists i :: PassedOver(plans, date, i) && i < |plans| && plans[i].taskDate.Some? && plans[i].taskDate == date
    ensures r.Success? ==> exists i :: PassedOver(plans, date, i) && i < |plans| && plans[i] == r.value && r.value.taskDate == date
    ensures r == Failure(NullPointer) <==> exists i :: PassedOver(plans, date, i) && i < |plans| && plans[i].taskDate.None?
    ensures r == Failure(NoSuchElement) <==> PassedOver(plans, date, |plans|)
    decreases |plans|
  {
    if plans == [] then Failure(NoSuchElement)
    else if plans[0].taskDate.None? then Failure(NullPointer)
    else if plans[0].taskDate == date then Success(plans[0])
    else
      var r := FirstPlanDated(plans[1..], date);
      ghost var tail := plans[1..];
      assert forall i :: 0 <= i < |tail| ==> (PassedOver(tail, date, i) <==> PassedOver(plans, date, i + 1));
      assert forall i :: 0 <= i <= |tail| ==> (PassedOver(tail, date, i) <==> PassedOver(plans, date, i + 1));
      r
  }

  class TaskPool {
    /** The plans, in the order they were added. */
    var taskPlanList: seq<TaskPlan>

    constructor ()
      ensures taskPlanList == []
    {
      taskPlanList := [];
    }

    /** Appends `taskPlan` at the end of the list. */
    method AddTaskPlan(taskPlan: TaskPlan)
      modifies this
      ensures taskPlanList == old(taskPlanList) + [taskPlan]
    {
      taskPlanList := taskPlanList + [taskPlan];
    }

    /**
     * A null date on a non-empty list gives the plan added last; any other
     * call gives the earliest-added plan dated `date`, or the exception the
     * stream lookup ends in. A function: the lookup changes nothing.
     */
    function GetTaskPlanByDate(date: Option<int>): (r: Result<TaskPlan, LookupError>)
      reads this
      ensures date.None? && |taskPlanList| > 0 ==> r == Success(taskPlanList[|taskPlanList| - 1])
      ensures date.None? && taskPlanList == [] ==> r == Failure(NoSuchElement)
      ensures date.Some? ==> r == FirstPlanDated(taskPlanList, date)
    {
      if date.None? && |taskPlanList| > 0 then Success(taskPlanList[|taskPlanList| - 1])
      else FirstPlanDated(taskPlanList, date)
    }
  }
}
