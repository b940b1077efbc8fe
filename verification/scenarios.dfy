/** Clients of WorkoutPlanner that call the handlers in sequence and state
    what the page then holds, using only the methods' contracts. */
module Scenarios {
  import opened Wrappers
  import opened Calendar
  import opened Planner

  /** A first run with empty storage, then "Push Day" scheduled on Monday: the
      seed lists are there, and of the seven cells of the week only Monday's
      shows a workout. */
  method FirstRunMonday(today: Day) returns (p: WorkoutPlanner)
    ensures p.workoutLists.Keys == {"Push Day", "Leg Day"}
    ensures |p.workoutLists["Push Day"]| == 3 && |p.workoutLists["Leg Day"]| == 3
    ensures p.weeklySchedule == map[WeekStart(today) := "Push Day"]
    ensures ShownWorkout(p.weeklySchedule, WeekDays(today)[0]) == Some("Push Day")
    ensures forall i :: 1 <= i < 7 ==> ShownWorkout(p.weeklySchedule, WeekDays(today)[i]).None?
  {
    p := new WorkoutPlanner.Load(today, None, None);
    SelectValuesResolve(1);
    var written := p.ScheduleWorkout("Push Day", "monday");
    assert DayInWeek(today, 1) == WeekStart(today);
  }

  /** Create a list, schedule it, delete it: the schedule keeps the deleted
      list's name on that day. */
  method DeleteLeavesDanglingEntry(today: Day, stored: Lists) returns (p: WorkoutPlanner)
    requires "Cardio" !in stored
    ensures "Cardio" !in p.workoutLists
    ensures p.workoutLists == stored
    ensures p.weeklySchedule == map[WeekStart(today) + 2 := "Cardio"]
  {
    p := new WorkoutPlanner.Load(today, Some(stored), None);
    CardioIsNew(stored);
    var outcome := p.CreateList(Some("Cardio"));
    WednesdayOfWeek(today);
    var written := p.ScheduleWorkout("Cardio", "wednesday");
    p.DeleteList("Cardio", true);
    DeleteUndoesCreate(stored, Some("Cardio"));
  }

  /** A name that is not stored passes the create-list check. */
  lemma CardioIsNew(stored: Lists)
    requires "Cardio" !in stored
    ensures CheckName(stored, Some("Cardio")) == Accepted("Cardio")
  {
  }

  /** "wednesday" is the third day after the week's Monday. */
  lemma WednesdayOfWeek(today: Day)
    ensures DayIndex("wednesday") == 3
    ensures DayInWeek(today, 3) == WeekStart(today) + 2
  {
    SelectValuesResolve(3);
  }
}
