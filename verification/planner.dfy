/** The planner's state and its handlers: the workout lists (list name to
    exercises, in order), the weekly schedule (day to list name) and the
    reference day that selects the week shown. Each handler is a method of
    WorkoutPlanner; the function beside it states the new state it leaves. */
module Planner {
  import opened Wrappers
  import opened Calendar
  import opened JsBuiltins

  /** workoutLists: each list name to its exercises, in order. */
  type Lists = map<string, seq<string>>

  /** weeklySchedule: each scheduled day to the name of one list. */
  type Schedule = map<Day, string>

  /** The seed a first run installs when storage holds no lists. */
  const PushDay: seq<string> :=
    ["Bench Press (3x8)", "Overhead Press (3x10)", "Tricep Pushdowns (3x15)"]
  const LegDay: seq<string> :=
    ["Barbell Squats (4x6)", "Romanian Deadlifts (3x10)", "Calf Raises (4x20)"]

  /** What the calendar cell of day d shows: the chip of the scheduled list,
      or None for a rest day. The cell tests the entry for truthiness, so an
      entry holding the empty name shows as a rest day. */
  function ShownWorkout(s: Schedule, d: Day): (r: Option<string>)
    ensures r.Some? ==> d in s && r.value == s[d] && r.value != ""
    ensures r.None? ==> d !in s || s[d] == ""
  {
    if d in s && s[d] != "" then Some(s[d]) else None
  }

  // ----- Creating a list -----------------------------------------------------

  /** The outcome of the create-list prompt: cancelled or blank (nothing
      happens), a name already taken (alert), or a name to add. */
  datatype NameCheck = Ignored | Duplicate | Accepted(name: string)

  /** The create-list test of the prompted name. Blank means white space
      only; the duplicate test asks whether a list of that name exists. */
  function CheckName(lists: Lists, input: Option<string>): (c: NameCheck)
    ensures c == Ignored <==> input.None? || AllSpace(input.value)
    ensures c == Duplicate <==> input.Some? && !AllSpace(input.value) && input.value in lists
    ensures c.Accepted? ==> c.name == input.value && c.name !in lists
  {
    if input.None? || input.value == "" then Ignored
    else
      TrimBlankIff(input.value);
      if Trim(input.value) == "" then Ignored
      else if input.value in lists then Duplicate
      else Accepted(input.value)
  }

  /** The properties every plain object inherits from Object.prototype; a
      lookup `workoutLists[name]` of one of them yields a truthy value. */
  const ObjectPrototypeKeys: set<string> := {
    "constructor", "hasOwnProperty", "isPrototypeOf", "propertyIsEnumerable",
    "toLocaleString", "toString", "valueOf", "__proto__",
    "__defineGetter__", "__defineSetter__", "__lookupGetter__", "__lookupSetter__"
  }

  /** The create-list test as the handler writes it: `workoutLists[name]` is
      truthy for an existing list and also for an inherited property name. */
  function CheckNameAsWritten(lists: Lists, input: Option<string>): (c: NameCheck)
    ensures input.Some? && input.value !in ObjectPrototypeKeys ==> c == CheckName(lists, input)
    ensures input.None? ==> c == Ignored
  {
    if input.None? || input.value == "" || Trim(input.value) == "" then Ignored
    else if input.value in lists || input.value in ObjectPrototypeKeys then Duplicate
    else Accepted(input.value)
  }

  /** The handler as written refuses a fresh list called "toString", claiming a
      list of that name exists, where the intended test accepts it. */
  lemma PrototypeNameRefused(lists: Lists)
    requires "toString" !in lists
    ensures CheckNameAsWritten(lists, Some("toString")) == Duplicate
    ensures CheckName(lists, Some("toString")) == Accepted("toString")
  {
  }

  /** The lists after the create-list handler: an accepted name adds exactly
      one new, empty list; anything else changes nothing. */
  function WithNewList(lists: Lists, input: Option<string>): (r: Lists)
    ensures var c := CheckName(lists, input);
      && (!c.Accepted? ==> r == lists)
      && (c.Accepted? ==>
        && r.Keys == lists.Keys + {c.name}
        && |r| == |lists| + 1
        && r[c.name] == []
        && forall n :: n in lists ==> r[n] == lists[n])
  {
    var c := CheckName(lists, input);
    if c.Accepted? then lists[c.name := []] else lists
  }

  /** Creating a list under a name already taken keeps that list's exercises. */
  lemma DuplicateKeepsExercises(lists: Lists, name: string)
    requires name in lists
    ensures WithNewList(lists, Some(name))[name] == lists[name]
  {
  }

  // ----- Importing a preset --------------------------------------------------

  /** The preset's exercise entries once its markup is stripped: each entry is
      trimmed and the empty ones are dropped, in order. */
  function CleanItems(items: seq<string>): (r: seq<string>)
    ensures |r| <= |items|
    ensures forall k :: 0 <= k < |r| ==> r[k] != "" && Trim(r[k]) == r[k]
  {
    if items == [] then []
    else
      var rest := CleanItems(items[1..]);
      var t := Trim(items[0]);
      TrimIdempotent(items[0]);
      if t == "" then rest else [t] + rest
  }

  /** One fragment is kept as its trim unless it trims to nothing. */
  lemma CleanItemsOne(x: string)
    ensures CleanItems([x]) == if Trim(x) == "" then [] else [Trim(x)]
  {
  }

  /** Cleaning works fragment by fragment and keeps their order: cleaning two
      runs of fragments one after the other gives the two cleaned runs in
      that order. */
  lemma {:induction false} CleanItemsAppend(a: seq<string>, b: seq<string>)
    ensures CleanItems(a + b) == CleanItems(a) + CleanItems(b)
  {
    if a != [] {
      assert (a + b)[1..] == a[1..] + b;
      CleanItemsAppend(a[1..], b);
    } else {
      assert a + b == b;
    }
  }

  /** Entries that are already trimmed and non-empty are kept as they are. */
  lemma {:induction false} CleanItemsKeepsClean(items: seq<string>)
    requires forall k :: 0 <= k < |items| ==> items[k] != "" && Trim(items[k]) == items[k]
    ensures CleanItems(items) == items
  {
    if items != [] {
      CleanItemsKeepsClean(items[1..]);
    }
  }

  /** The lists after a preset import: a title already taken changes nothing
      (that list keeps its exercises); otherwise the title is added with the
      cleaned entries and every other list is kept. */
  function WithPreset(lists: Lists, title: string, items: seq<string>): (r: Lists)
    ensures title in lists ==> r == lists
    ensures title !in lists ==>
      && r.Keys == lists.Keys + {title}
      && r[title] == CleanItems(items)
      && forall n :: n in lists ==> r[n] == lists[n]
  {
    if title in lists then lists else lists[title := CleanItems(items)]
  }

  // ----- Editing a list ------------------------------------------------------

  /** The lists after "Add": the trimmed text goes at the end of the named list
      when it is not blank; no other list changes. A name with no list makes
      the handler throw before it changes anything. */
  function WithExercise(lists: Lists, name: string, text: string): (r: Lists)
    ensures r.Keys == lists.Keys
    ensures forall n :: n in lists && n != name ==> r[n] == lists[n]
    ensures name in lists && name != "" && !AllSpace(text) ==>
      r[name] == lists[name] + [Trim(text)]
    ensures name == "" || AllSpace(text) ==> r == lists
  {
    TrimBlankIff(text);
    if name in lists && name != "" && Trim(text) != "" then
      lists[name := lists[name] + [Trim(text)]]
    else lists
  }

  /** What "Add" appends is itself trimmed and not empty. */
  lemma AddedExerciseIsClean(lists: Lists, name: string, text: string)
    requires name in lists && name != "" && !AllSpace(text)
    ensures var e := WithExercise(lists, name, text)[name][|lists[name]|];
      e != "" && Trim(e) == e
  {
  }

  /** The lists after a remove button: splice(index, 1) on the named list when
      the index parsed; no other list changes. */
  function WithoutExercise(lists: Lists, name: string, index: Option<int>): (r: Lists)
    ensures r.Keys == lists.Keys
    ensures forall n :: n in lists && n != name ==> r[n] == lists[n]
    ensures name == "" || index.None? ==> r == lists
  {
    if name in lists && name != "" && index.Some? then
      lists[name := SpliceOne(lists[name], index.value)]
    else lists
  }

  /** Removing at an in-range index leaves the list one shorter, with the
      other exercises in their original order. */
  lemma RemoveInRange(lists: Lists, name: string, i: int)
    requires name in lists && name != "" && 0 <= i < |lists[name]|
    ensures var after := WithoutExercise(lists, name, Some(i))[name];
      && |after| == |lists[name]| - 1
      && after == lists[name][..i] + lists[name][i + 1..]
  {
  }

  /** Removing the exercise just added, by its index, restores the lists. */
  lemma RemoveUndoesAdd(lists: Lists, name: string, text: string)
    requires name in lists && name != "" && !AllSpace(text)
    ensures WithoutExercise(WithExercise(lists, name, text), name, Some(|lists[name]|)) == lists
  {
    SpliceUndoesAppend(lists[name], Trim(text));
  }

  /** The lists after "Delete List": a confirmed deletion removes just that
      name; the schedule is not consulted. */
  function WithoutList(lists: Lists, name: string, confirmed: bool): (r: Lists)
    ensures r.Keys == if name != "" && confirmed then lists.Keys - {name} else lists.Keys
    ensures forall n :: n in r ==> r[n] == lists[n]
  {
    if name != "" && confirmed then lists - {name} else lists
  }

  /** Deleting a list just created gives back the lists as they were. */
  lemma DeleteUndoesCreate(lists: Lists, input: Option<string>)
    requires CheckName(lists, input).Accepted?
    ensures WithoutList(WithNewList(lists, input), input.value, true) == lists
  {
  }

  // ----- The schedule --------------------------------------------------------

  /** The schedule after "Schedule": a known day name writes the list onto that
      weekday of the week shown, replacing what was there; an unknown or empty
      name changes nothing. */
  function ScheduledOn(s: Schedule, ref: Day, name: string, dayValue: string): (r: Schedule)
    ensures DayIndex(dayValue) == -1 ==> r == s
    ensures DayIndex(dayValue) >= 0 ==>
      var d := DayInWeek(ref, DayIndex(dayValue));
      && r.Keys == s.Keys + {d}
      && r[d] == name
      && forall e :: e in s && e != d ==> r[e] == s[e]
  {
    EmptyNamesNoDay();
    var i := DayIndex(dayValue);
    if dayValue != "" && i != -1 then s[DayInWeek(ref, i) := name] else s
  }

  /** The schedule holds one list per day: scheduling a second list onto the
      same weekday replaces the first. */
  lemma ScheduleOverwrites(s: Schedule, ref: Day, a: string, b: string, dayValue: string)
    ensures ScheduledOn(ScheduledOn(s, ref, a, dayValue), ref, b, dayValue)
         == ScheduledOn(s, ref, b, dayValue)
  {
  }

  /** The schedule after a drop: the origin entry, when there is one, is
      deleted first, then the target day gets the dropped name. */
  function Moved(s: Schedule, origin: Option<Day>, target: Day, name: string): (r: Schedule)
    ensures r.Keys == (if origin.Some? then s.Keys - {origin.value} else s.Keys) + {target}
    ensures r[target] == name
    ensures forall d :: d in r && d != target ==> r[d] == s[d]
  {
    var rest := if origin.Some? then s - {origin.value} else s;
    rest[target := name]
  }

  /** Moving a scheduled workout never adds a scheduled day. */
  lemma MoveNeverGrows(s: Schedule, origin: Day, target: Day, name: string)
    requires origin in s
    ensures |Moved(s, Some(origin), target, name)| <= |s|
  {
  }

  /** Dragging a workout to a free day and back restores the schedule. */
  lemma MoveThereAndBack(s: Schedule, a: Day, b: Day)
    requires a in s && b !in s
    ensures Moved(Moved(s, Some(a), b, s[a]), Some(b), a, s[a]) == s
  {
  }

  /** The schedule after the chip's remove button: a day showing a workout
      loses its entry; otherwise nothing changes. */
  function Unscheduled(s: Schedule, d: Day): (r: Schedule)
    ensures ShownWorkout(s, d).Some? ==> r.Keys == s.Keys - {d}
    ensures ShownWorkout(s, d).None? ==> r == s
    ensures forall e :: e in r ==> r[e] == s[e]
  {
    if d in s && s[d] != "" then s - {d} else s
  }

  /** After "Schedule" with a known day name, the cell of that day shows the
      list. */
  lemma ScheduledIsShown(s: Schedule, ref: Day, name: string, dayValue: string)
    requires DayIndex(dayValue) >= 0 && name != ""
    ensures ShownWorkout(ScheduledOn(s, ref, name, dayValue), DayInWeek(ref, DayIndex(dayValue))) == Some(name)
  {
  }

  /** After the chip's remove button, its day shows a rest day and every other
      cell shows what it showed before. */
  lemma UnscheduledIsRest(s: Schedule, d: Day, e: Day)
    ensures ShownWorkout(Unscheduled(s, d), d).None?
    ensures e != d ==> ShownWorkout(Unscheduled(s, d), e) == ShownWorkout(s, e)
  {
  }

  /** Removing what was just scheduled onto a free day restores the schedule. */
  lemma RemoveUndoesSchedule(s: Schedule, ref: Day, name: string, dayValue: string)
    requires DayIndex(dayValue) >= 0 && name != ""
    requires DayInWeek(ref, DayIndex(dayValue)) !in s
    ensures Unscheduled(ScheduledOn(s, ref, name, dayValue), DayInWeek(ref, DayIndex(dayValue))) == s
  {
  }

  // ----- The planner ---------------------------------------------------------

  /** The page's state. Storage, dialogs and form inputs are parameters of the
      methods that read them. */
  class WorkoutPlanner {
    var workoutLists: Lists
    var weeklySchedule: Schedule
    var currentDate: Day

    /** Start-up: the reference day is today; loadData takes the stored lists,
        or the two seed lists when there are none, and the stored schedule, or
        an empty one. */
    constructor Load(today: Day, storedLists: Option<Lists>, storedSchedule: Option<Schedule>)
      ensures currentDate == today
      ensures storedLists.Some? ==> workoutLists == storedLists.value
      ensures storedLists.None? ==>
        && workoutLists.Keys == {"Push Day", "Leg Day"}
        && workoutLists["Push Day"] == PushDay && |PushDay| == 3
        && workoutLists["Leg Day"] == LegDay && |LegDay| == 3
      ensures storedSchedule.Some? ==> weeklySchedule == storedSchedule.value
      ensures storedSchedule.None? ==> weeklySchedule == map[]
    {
      currentDate := today;
      workoutLists := map[];
      weeklySchedule := map[];
      if storedLists.Some? {
        workoutLists := storedLists.value;
      } else {
        workoutLists := map["Push Day" := PushDay, "Leg Day" := LegDay];
      }
      if storedSchedule.Some? {
        weeklySchedule := storedSchedule.value;
      }
    }

    /** "Create new list", given what the prompt returned. */
    method CreateList(input: Option<string>) returns (outcome: NameCheck)
      modifies this
      ensures outcome == CheckName(old(workoutLists), input)
      ensures workoutLists == WithNewList(old(workoutLists), input)
      ensures weeklySchedule == old(weeklySchedule) && currentDate == old(currentDate)
    {
      outcome := CheckName(workoutLists, input);
      if outcome.Accepted? {
        workoutLists := workoutLists[outcome.name := []];
      }
    }

    /** A preset's button, given its title and its entries stripped of markup. */
    method ImportPreset(title: string, items: seq<string>) returns (added: bool)
      modifies this
      ensures added <==> title !in old(workoutLists)
      ensures workoutLists == WithPreset(old(workoutLists), title, items)
      ensures weeklySchedule == old(weeklySchedule) && currentDate == old(currentDate)
    {
      if title in workoutLists {
        return false;
      }
      workoutLists := workoutLists[title := CleanItems(items)];
      added := true;
    }

    /** "Add" on a list card, given the text of its input. */
    method AddExercise(listName: string, text: string)
      modifies this
      ensures workoutLists == WithExercise(old(workoutLists), listName, text)
      ensures weeklySchedule == old(weeklySchedule) && currentDate == old(currentDate)
    {
      var exercise := Trim(text);
      if exercise != "" && listName != "" && listName in workoutLists {
        workoutLists := workoutLists[listName := workoutLists[listName] + [exercise]];
      }
    }

    /** An exercise's remove button, given its index as parsed (None for NaN). */
    method RemoveExercise(listName: string, index: Option<int>)
      modifies this
      ensures workoutLists == WithoutExercise(old(workoutLists), listName, index)
      ensures weeklySchedule == old(weeklySchedule) && currentDate == old(currentDate)
    {
      if listName != "" && index.Some? && listName in workoutLists {
        workoutLists := workoutLists[listName := SpliceOne(workoutLists[listName], index.value)];
      }
    }

    /** "Delete List", given the answer to the confirmation. The schedule is
        left alone, so entries naming the list remain. */
    method DeleteList(listName: string, confirmed: bool)
      modifies this
      ensures workoutLists == WithoutList(old(workoutLists), listName, confirmed)
      ensures weeklySchedule == old(weeklySchedule) && currentDate == old(currentDate)
    {
      if listName != "" && confirmed {
        workoutLists := workoutLists - {listName};
      }
    }

    /** "Schedule" on a list card, given the value of its day selector; answers
        the day written, if any. */
    method ScheduleWorkout(listName: string, dayValue: string) returns (written: Option<Day>)
      modifies this
      ensures written.Some? <==> DayIndex(dayValue) >= 0
      ensures written.Some? ==>
        && Weekday(written.value) == DayIndex(dayValue)
        && WeekStart(written.value) == WeekStart(currentDate)
      ensures weeklySchedule == ScheduledOn(old(weeklySchedule), old(currentDate), listName, dayValue)
      ensures workoutLists == old(workoutLists) && currentDate == old(currentDate)
    {
      EmptyNamesNoDay();
      written := None;
      if dayValue != "" {
        var dayIndex := DayIndex(dayValue);
        if dayIndex != -1 {
          var weekStart := WeekStart(currentDate);
          var adjusted := if dayIndex == 0 then 6 else dayIndex - 1;
          var target := weekStart + adjusted;
          assert target == DayInWeek(currentDate, dayIndex);
          weeklySchedule := weeklySchedule[target := listName];
          written := Some(target);
        }
      }
    }

    /** A drop on the calendar cell of target, given the dragged name and its
        origin day (None when the payload carries none). */
    method DropWorkout(name: string, origin: Option<Day>, target: Day)
      modifies this
      ensures weeklySchedule == Moved(old(weeklySchedule), origin, target, name)
      ensures origin.Some? && origin.value in old(weeklySchedule) ==>
        |weeklySchedule| <= |old(weeklySchedule)|
      ensures workoutLists == old(workoutLists) && currentDate == old(currentDate)
    {
      if origin.Some? {
        weeklySchedule := weeklySchedule - {origin.value};
      }
      weeklySchedule := weeklySchedule[target := name];
      if origin.Some? && origin.value in old(weeklySchedule) {
        MoveNeverGrows(old(weeklySchedule), origin.value, target, name);
      }
    }

    /** The remove button on the chip of day d. */
    method RemoveScheduledWorkout(d: Day)
      modifies this
      ensures weeklySchedule == Unscheduled(old(weeklySchedule), d)
      ensures workoutLists == old(workoutLists) && currentDate == old(currentDate)
    {
      if d in weeklySchedule && weeklySchedule[d] != "" {
        weeklySchedule := weeklySchedule - {d};
      }
    }

    /** "Previous week": the reference day and the week shown move back 7 days. */
    method PreviousWeek()
      modifies this
      ensures currentDate == old(currentDate) - 7
      ensures WeekStart(currentDate) == WeekStart(old(currentDate)) - 7
      ensures workoutLists == old(workoutLists) && weeklySchedule == old(weeklySchedule)
    {
      WeekStartShift(currentDate, -1);
      currentDate := currentDate - 7;
    }

    /** "Next week": the reference day and the week shown move on 7 days. */
    method NextWeek()
      modifies this
      ensures currentDate == old(currentDate) + 7
      ensures WeekStart(currentDate) == WeekStart(old(currentDate)) + 7
      ensures workoutLists == old(workoutLists) && weeklySchedule == old(weeklySchedule)
    {
      WeekStartShift(currentDate, 1);
      currentDate := currentDate + 7;
    }
  }
}
