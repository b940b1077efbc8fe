# Workout planner: the state model

This project models the state behind the browser workout planner in
`workoutPlanner/code.js`, and proves properties of it. The page keeps three
pieces of state:

- `workoutLists` maps a list name to its exercises, in order.
- `weeklySchedule` maps a calendar day to the name of the one list scheduled
  on it.
- `currentDate` is the reference day that selects the week on show.

Every handler that changes this state is a method of the class
`Planner.WorkoutPlanner`. These are: load at start-up, create a list, import a
preset, add an exercise, remove an exercise, delete a list, schedule a list
onto a weekday, drop a chip onto a day, remove a chip, and the previous/next
week buttons. Each method's postcondition ties the new state to a pure
function of the old state (`WithNewList`, `WithPreset`, `WithExercise`,
`WithoutExercise`, `WithoutList`, `ScheduledOn`, `Moved`, `Unscheduled`), and
says that the rest of the state is unchanged. The properties are proved as
lemmas about those functions: undoing, overwriting, the count of scheduled
days, and keeping every other list and day.

Dates are whole day numbers, with day 0 on Thursday 1 January 1970.
`Calendar.Weekday` uses `Date.prototype.getDay` numbering (0 is Sunday).
`Calendar.WeekStart` is `getWeekStart`. The JavaScript built-ins the handlers
use are written out in `JsBuiltins`: `trim`, the ASCII part of `toLowerCase`
and `splice(i, 1)`. `indexOf` is `Calendar.IndexOf`, beside the day-name table
it searches. `Scenarios` calls handlers one after another.
Its methods prove the worked examples: the first-run seed with "Push Day"
scheduled on Monday, and a deleted list that the schedule still names.

Files: `wrappers.dfy` (Option), `js_builtins.dfy`, `calendar.dfy`,
`planner.dfy`, `scenarios.dfy`.

## Model

| member | source | states |
|---|---|---|
| `JsBuiltins.Trim` | workoutPlanner/code.js:195 | the result is the slice of the input between its leading and trailing white space; it is empty or starts and ends with a non-space, and everything dropped is white space |
| `JsBuiltins.TrimBlankIff` | workoutPlanner/code.js:285 | a string trims to "" exactly when it is all white space (the blank-name and blank-exercise test) |
| `JsBuiltins.TrimIdempotent` | workoutPlanner/code.js:195 | trimming a trimmed string changes nothing |
| `JsBuiltins.LowerAscii` | workoutPlanner/code.js:224 | lower-casing keeps the length, leaves no upper-case ASCII letter, and changes a character only when it is an upper-case ASCII letter, which becomes its lower-case letter (32 code points on) |
| `JsBuiltins.LowerAsciiOfLower` | workoutPlanner/code.js:224 | a string with no upper-case letter lower-cases to itself |
| `JsBuiltins.SpliceStart` | workoutPlanner/code.js:207 | where `splice(start, 1)` starts: an in-range start as given, a negative start counted from the end; a negative start beyond the length gives 0 and a start past the end gives the length |
| `JsBuiltins.SpliceOne` | workoutPlanner/code.js:207 | `splice(start, 1)` at the clamped start: inside the array the result is one shorter, the elements before the start are kept and those after it move down by one; at the end the array is unchanged |
| `JsBuiltins.SpliceInRange` | workoutPlanner/code.js:207 | removing an in-range index leaves a list one shorter, with the elements before it in place and the ones after it shifted down by one; it loses exactly that element (multisets) |
| `JsBuiltins.SpliceOutOfRange` | workoutPlanner/code.js:207 | an index at or past the end removes nothing |
| `JsBuiltins.SpliceFromEnd` | workoutPlanner/code.js:207 | a negative index in range acts as that index counted from the end |
| `JsBuiltins.SpliceUndoesAppend` | workoutPlanner/code.js:197-207 | removing the element just pushed gives back the original array |
| `Calendar.Weekday` | workoutPlanner/code.js:161 | the weekday number lies in 0..6 |
| `Calendar.WeekStart` | workoutPlanner/code.js:159-164 | the week start is a Monday, at most 6 days before the input day or equal to it |
| `Calendar.WeekStartUnique` | workoutPlanner/code.js:159-164 | it is the only Monday in the six days up to the input day |
| `Calendar.WeekStartWithinWeek` | workoutPlanner/code.js:55-57 | each of the seven days of a shown week has that week's Monday as its week start |
| `Calendar.WeekStartShift` | workoutPlanner/code.js:273-281 | moving the reference day by k weeks moves the week start by k weeks |
| `Calendar.WeekDays` | workoutPlanner/code.js:47-59 | the seven day keys of the calendar are consecutive days from the week start, with weekdays Monday to Sunday |
| `Calendar.IndexOf` | workoutPlanner/code.js:224 | `indexOf` answers -1 exactly when the value is absent; otherwise the first position holding it |
| `Calendar.DayIndex` | workoutPlanner/code.js:224 | `indexOf(day.toLowerCase())` in the day-name table answers -1 or a getDay number 0..6 (`DayIndexNames` states which) |
| `Calendar.DayIndexNames` | workoutPlanner/code.js:224 | a day value resolves to the getDay number whose name equals its lower-case form, or to -1 when no day name does |
| `Calendar.SelectValuesResolve` | workoutPlanner/code.js:132-140 | each of the seven values the day selector offers resolves to its own weekday |
| `Calendar.MondayOffset` | workoutPlanner/code.js:229 | the offset from Monday is in 0..6 and lands on the requested weekday (Sunday is 6 days after Monday) |
| `Calendar.DayInWeek` | workoutPlanner/code.js:226-232 | the scheduled day falls on the requested weekday and inside the week shown |
| `Planner.CheckName` | workoutPlanner/code.js:283-290 | a cancelled or blank prompt answer is ignored; a non-blank name is a duplicate exactly when that list exists; otherwise it is accepted and is new |
| `Planner.CheckNameAsWritten` | workoutPlanner/code.js:286 | the test as written agrees with `CheckName` on every name that is not an Object.prototype property |
| `Planner.PrototypeNameRefused` | workoutPlanner/code.js:286-289 | as written, a fresh list called "toString" is refused as a duplicate; the intended test accepts it |
| `Planner.WithNewList` | workoutPlanner/code.js:283-294 | a rejected name leaves the lists unchanged; an accepted one adds exactly one new key, mapped to an empty list, and keeps every other list |
| `Planner.DuplicateKeepsExercises` | workoutPlanner/code.js:286-289 | creating a list whose name is taken keeps that list's exercises |
| `Planner.CleanItems` | workoutPlanner/code.js:309 | every preset entry kept is non-empty and trimmed; there are no more of them than fragments |
| `Planner.CleanItemsOne` | workoutPlanner/code.js:309 | a single fragment is dropped when it trims to nothing and is otherwise kept as its trim |
| `Planner.CleanItemsAppend` | workoutPlanner/code.js:309 | cleaning two runs of fragments in a row gives the two cleaned runs in the same order, so the entries keep the fragments' order |
| `Planner.CleanItemsKeepsClean` | workoutPlanner/code.js:309 | entries that are already trimmed and non-empty pass through unchanged |
| `Planner.WithPreset` | workoutPlanner/code.js:304-312 | a title already taken changes nothing, so that list keeps its exercises; otherwise the title is added with the cleaned entries and every other list is kept |
| `Planner.WithExercise` | workoutPlanner/code.js:193-201 | the trimmed text goes at the end of the named list only when it is not blank (and the name is not empty); otherwise nothing changes; no other list changes |
| `Planner.AddedExerciseIsClean` | workoutPlanner/code.js:195-197 | the appended exercise is non-empty and is its own trim |
| `Planner.WithoutExercise` | workoutPlanner/code.js:204-210 | the key set is unchanged, every other list is unchanged, and an empty name or an index that did not parse changes nothing |
| `Planner.RemoveInRange` | workoutPlanner/code.js:207 | removing an in-range index leaves that list one shorter and holding the other exercises in their original order |
| `Planner.RemoveUndoesAdd` | workoutPlanner/code.js:197-207 | removing the exercise just added, by its index, restores all the lists |
| `Planner.WithoutList` | workoutPlanner/code.js:213-218 | a confirmed delete removes only that key; the other lists are unchanged |
| `Planner.DeleteUndoesCreate` | workoutPlanner/code.js:213-218 | deleting a list just created restores the lists |
| `Planner.ScheduledOn` | workoutPlanner/code.js:221-237 | a known day name writes the list onto that weekday of the week shown, overwriting any entry there and keeping every other day; an unknown or empty day name changes nothing |
| `Planner.ScheduleOverwrites` | workoutPlanner/code.js:233 | scheduling a second list on the same weekday replaces the first (one list per day) |
| `Planner.Moved` | workoutPlanner/code.js:99-103 | the origin entry, if any, is removed; the target day holds the dropped name, even when the target is the origin; every other day is unchanged |
| `Planner.MoveNeverGrows` | workoutPlanner/code.js:99-103 | when the origin is a scheduled day, a drop never increases the number of scheduled days |
| `Planner.MoveThereAndBack` | workoutPlanner/code.js:99-103 | dragging a workout to a free day and back restores the schedule |
| `Planner.ShownWorkout` | workoutPlanner/code.js:66-67 | a cell shows a workout only for a scheduled day with a non-empty name, and then shows that name; a day without an entry or with an empty one is a rest day |
| `Planner.ScheduledIsShown` | workoutPlanner/code.js:233-252 | after a list with a non-empty name is scheduled on a known weekday, that day's cell shows it |
| `Planner.UnscheduledIsRest` | workoutPlanner/code.js:252-254 | after a chip's remove button, its day is a rest day and every other cell shows what it showed before |
| `Planner.Unscheduled` | workoutPlanner/code.js:252-254 | a day showing a workout loses only its own entry; otherwise nothing changes |
| `Planner.RemoveUndoesSchedule` | workoutPlanner/code.js:233-254 | removing the chip just scheduled onto a free day restores the schedule |
| `Planner.WorkoutPlanner.Load` | workoutPlanner/code.js:25-42 | the stored lists are used when present, otherwise exactly "Push Day" and "Leg Day" with their 3 exercises each; the stored schedule is used when present, otherwise it is empty; the reference day is today |
| `Planner.WorkoutPlanner.CreateList` | workoutPlanner/code.js:283-294 | it reports the name check; the lists become `WithNewList` of the old lists; the schedule and the reference day are unchanged |
| `Planner.WorkoutPlanner.ImportPreset` | workoutPlanner/code.js:298-314 | a preset is added exactly when its title is new; the lists become `WithPreset` of the old lists; the schedule is unchanged |
| `Planner.WorkoutPlanner.AddExercise` | workoutPlanner/code.js:193-201 | the lists become `WithExercise` of the old lists; the schedule and the reference day are unchanged |
| `Planner.WorkoutPlanner.RemoveExercise` | workoutPlanner/code.js:204-210 | the lists become `WithoutExercise` of the old lists; the schedule and the reference day are unchanged |
| `Planner.WorkoutPlanner.DeleteList` | workoutPlanner/code.js:213-218 | the lists become `WithoutList` of the old lists; the schedule is left exactly as it was, so entries may name a deleted list |
| `Planner.WorkoutPlanner.ScheduleWorkout` | workoutPlanner/code.js:221-240 | it reports the day it wrote, which has the requested weekday and lies in the week shown; the schedule becomes `ScheduledOn` of the old one; the lists are unchanged |
| `Planner.WorkoutPlanner.DropWorkout` | workoutPlanner/code.js:92-107 | the schedule becomes `Moved` of the old one and does not grow when the origin was scheduled; the lists are unchanged |
| `Planner.WorkoutPlanner.RemoveScheduledWorkout` | workoutPlanner/code.js:243-261 | the schedule becomes `Unscheduled` of the old one; the lists are unchanged |
| `Planner.WorkoutPlanner.PreviousWeek` | workoutPlanner/code.js:273-276 | the reference day and the week start move back exactly 7 days; both maps are unchanged |
| `Planner.WorkoutPlanner.NextWeek` | workoutPlanner/code.js:278-281 | the reference day and the week start move on exactly 7 days; both maps are unchanged |
| `Scenarios.FirstRunMonday` | workoutPlanner/code.js:29-37 | with empty storage, the seed lists are installed; after "Push Day" is scheduled on "monday", the schedule is exactly {Monday of this week: "Push Day"}; Monday's cell shows "Push Day" and the other six cells are rest days |
| `Scenarios.DeleteLeavesDanglingEntry` | workoutPlanner/code.js:213-218 | create a list, schedule it, delete it: the lists are back as stored, and the schedule still names the deleted list |

## Findings

| source | as written | input that shows it | evidently intended | confidence | as-written member | corrected member |
|---|---|---|---|---|---|---|
| workoutPlanner/code.js:286 | `workoutLists[newListName]` is truthy for an existing list, and also for any property inherited from Object.prototype | a prompt answer of "toString" (or "constructor", "valueOf", "__proto__", ...) when no such list exists: the alert says the list already exists and nothing is created | only the name of an existing list is refused | high; not executed | `Planner.CheckNameAsWritten` (exhibited by `Planner.PrototypeNameRefused`) | `Planner.CheckName` |

The preset check at workoutPlanner/code.js:304 uses the same kind of lookup.
Preset titles come from fixed template cards, so no title reaches it.
`ImportPreset` therefore tests key membership.

## Left out

- Rendering is not modelled: the calendar and list-card markup, the detail
  modal (`showWorkoutDetails`) and its close handlers, the `listIndex`
  wiring and the `console.log`. The model keeps only the day keys of the week
  (`Calendar.WeekDays`) and what a cell shows (`Planner.ShownWorkout`).
- `saveData` and the storage calls are not modelled. `loadData` receives the
  stored lists and schedule as already-parsed `Option` values. A stored value
  that does not parse makes start-up fail; that is not modelled.
- JavaScript `Date` is replaced by day numbers. Day keys are local day
  numbers. The source turns them into `YYYY-MM-DD` keys with
  `toISOString`, in UTC, which can shift a key by one day in some time zones
  and around daylight-saving changes.
- The `prompt` and `confirm` dialogs, the form inputs and the drag-and-drop
  payload are method parameters. An empty origin in the payload is `None`.
  The `alert` messages are not modelled: `CreateList` and `ScheduleWorkout`
  report their outcome instead, and an unknown day name and an empty one
  both leave the state unchanged.
- Preset parsing is modelled only in part. Reading the title out of the card
  heading, splitting the markup on `<br>` and the `<strong>` regex are not
  modelled. `ImportPreset` receives the title and the fragments left after
  stripping. Its `CleanItems` does the trim and the filtering of empty
  entries.
- `parseInt` is not modelled: `RemoveExercise` receives the index as parsed,
  or `None` when it is NaN.
- When the named list does not exist, the add and remove handlers throw a
  TypeError before changing anything. The model leaves the state unchanged in
  that case.
- Strings are sequences of Unicode scalar values, where JavaScript uses UTF-16
  code units. `JsBuiltins.LowerAscii` lower-cases only ASCII letters. Matched
  against the seven lower-case day names, this gives the same answer as full
  `toLowerCase`.
- The schedule handler's `listName` is always a string in the model. An
  undefined `data-list-name` is not modelled.
- Planner.WorkoutPlanner.CreateList: models the intended duplicate test
  (`CheckName`), not the test as written at workoutPlanner/code.js:286. It
  therefore differs from the handler on the 12 names inherited from
  `Object.prototype`: for a fresh name such as "toString" the model adds the
  list, while the handler alerts that the list already exists and adds
  nothing (see "## Findings").
- Planner.WorkoutPlanner.DropWorkout: "the number of scheduled days does not
  grow" is stated only when the origin day holds an entry. A drop from an
  unscheduled origin onto a free day adds one entry.
