# In-memory todo task store, modelled in Dafny

This project models `InMemTaskRepo`, the in-memory store behind a small todo-list
web API, together with its record type `TodoTask`. The store keeps one ordered
list of tasks. It offers the following operations:

- create a task, unless the title is already taken case-insensitively;
- look a task up by id;
- update a task's title and description, which also resets its creation date;
- set a task's completion percentage, or its done flag;
- delete a task;
- two date-relative queries: tasks a given number of days from a reference
  task, and tasks in the reference task's Monday-to-Sunday week.

Layout, one module per file:

- `models.dfy` (`Models`): the `TodoTask` record. `Guid` is 128 bits and `short`
  is a 16-bit newtype. A date is a whole day number, where day 0 is Monday
  0001-01-01, the first .NET `DateTime`.
- `lists.dfy` (`Lists`): the `List<T>` operations the store relies on. These
  are `Find` and `FindIndex`, `Remove` of one element, and the filtered copy
  that a `foreach` + `Add` loop builds.
- `titles.dfy` (`Titles`): the `OrdinalIgnoreCase` title comparison. It folds
  both titles to upper case and compares the results.
- `calendar.dfy` (`Calendar`): `DayOfWeek`, `GetOffsetedDayofWeek`, the week
  start, `AreFallingInSameWeek` and the absolute day distance.
- `in_mem_task_repo.dfy` (`Repo`): each operation as a function of the task
  list (`AfterCreate`, `AfterUpdate`, …; `None` means "returns false, list
  unchanged"). Beside them is the class `InMemTaskRepo`, whose `tasks` field
  the methods reassign. Each method's `ensures` ties its result and new state
  to those functions. The two queries are loops proved against `IncomingTasks`
  and `ThisWeekTasks`.
- `repo_properties.dfy` (`RepoProperties`): properties that span calls. They
  cover title and id uniqueness, the completion range, delete-then-lookup,
  what the queries return, and the examples from the repository's tests.

Behaviour of the code that a caller might not expect, modelled as written:

- `SetDone` sets Completion to 100 whatever `isDone` is
  (Todo/Repo/InMemTaskRepo.cs:112-115). See `RepoProperties.SetDoneFalseCompletes`.
- `Update` does not re-check title uniqueness, so it can create two tasks
  whose titles match. See `RepoProperties.UpdateCanDuplicateTitles`.
- `Create` does not check ids. With a repeated id, `GetById`, `Update`,
  `SetCompletion`, `SetDone` and `Delete` act on the first match only. See
  `RepoProperties.CreateDuplicateIdIsShadowed` and
  `RepoProperties.DeleteRemovesFirstMatchOnly`.
- The day offset is an absolute distance (Todo/Repo/InMemTaskRepo.cs:141).
  The doc comment at Todo/Repo/InMemTaskRepo.cs:126 reads offset 1 as
  "tomorrow", but offset 1 also returns tasks from the day before. See
  `RepoProperties.IncomingTasksLooksBothWays`.
- `Create` does not range-check the completion of the task it stores, so the
  0..100 range holds only for tasks that enter with it. See
  `RepoProperties.CreateCompletionsValid`.

## Model

| member | source | states |
|---|---|---|
| Models.NewTodoTask | Todo/Models/TodoTask.cs:6-17 | a newly built task carries the supplied id, title, description and date, starts with Completion 0 (inside 0..100) and Done false |
| Lists.FindIndex | Todo/Repo/InMemTaskRepo.cs:62 | the index found holds a match and no earlier element matches; None only when no element matches |
| Lists.Find | Todo/Repo/InMemTaskRepo.cs:26 | a value is found exactly when some element matches, and it is the element at the first matching index |
| Lists.RemoveAt | Todo/Repo/InMemTaskRepo.cs:45 | the list loses exactly the element at that index; elements before it keep their positions and later ones move down by one |
| Lists.Filter | Todo/Repo/InMemTaskRepo.cs:131-147 | the copy a `foreach` + `Add` loop builds: no longer than the list, and every element in it is in the list and passes the test |
| Lists.FilterAppend | Todo/Repo/InMemTaskRepo.cs:133-145 | filtering keeps list order: filtering a concatenation equals concatenating the filtered parts |
| Lists.FilterMembership | Todo/Repo/InMemTaskRepo.cs:133-145 | an element is in the filtered copy if and only if it is in the list and passes the test |
| Lists.FilterSnoc | Todo/Repo/InMemTaskRepo.cs:133-145 | one more `foreach` step adds the current element to the result exactly when it passes the test |
| Titles.ToUpperOrdinal | Todo/Repo/InMemTaskRepo.cs:26 | the upper-cased character is never an ASCII lower-case letter; a lower-case ASCII letter moves 32 code points down, and every other character is unchanged |
| Titles.Fold | Todo/Repo/InMemTaskRepo.cs:26 | the folded title has the same length and holds the upper-cased character at each position |
| Titles.SameTitle | Todo/Repo/InMemTaskRepo.cs:26 | `String.Compare(a, b, OrdinalIgnoreCase) == 0`: the folded titles are equal, so matching titles have equal length |
| Titles.SameTitleCharwise | Todo/Repo/InMemTaskRepo.cs:26 | two titles compare equal ignoring case if and only if they have equal length and agree, after upper-casing, at every position |
| Titles.SameTitleIsEquivalence | Todo/Repo/InMemTaskRepo.cs:26 | the case-insensitive title comparison is reflexive, symmetric and transitive |
| Titles.FoldIdempotent | Todo/Repo/InMemTaskRepo.cs:26 | folding twice equals folding once, so a title matches its own folded form |
| Titles.SameTitleExamples | Todo/Repo/InMemTaskRepo.cs:26 | titles differing only in letter case collide; titles of different lengths do not |
| Calendar.DayOfWeek | Todo/Repo/InMemTaskRepo.cs:162 | a day's weekday is a .NET `DayOfWeek` value; it is Monday exactly on multiples of 7 and Sunday exactly on days 6 mod 7 |
| Calendar.GetOffsetedDayofWeek | Todo/Repo/InMemTaskRepo.cs:165-168 | the offset lies in 0..6, and that many days after the week's first day falls on the given weekday |
| Calendar.MondayOffsetIsDayMod7 | Todo/Repo/InMemTaskRepo.cs:165-168 | counted from Monday, the day-of-week offset of day d is d mod 7 |
| Calendar.WeekStart | Todo/Repo/InMemTaskRepo.cs:162 | the week start is d - d mod 7: a Monday, never before day 0, at most six days before d |
| Calendar.AreFallingInSameWeek | Todo/Repo/InMemTaskRepo.cs:159-163 | two dates share a week when their Monday week starts are equal; such dates are at most six days apart |
| Calendar.SameWeekIffSameWeekNumber | Todo/Repo/InMemTaskRepo.cs:159-163 | two dates fall in the same week if and only if their week numbers d / 7 are equal |
| Calendar.SameWeekIsEquivalence | Todo/Repo/InMemTaskRepo.cs:159-163 | the same-week relation is reflexive, symmetric and transitive |
| Calendar.WeekRunsMondayToSunday | Todo/Repo/InMemTaskRepo.cs:159-163 | a week runs from a Monday to the following Sunday, and the next Monday starts a new week |
| Calendar.SameWeekExamples | TodoTaskNUnitTests/TodoTaskTest.cs:1262-1309 | Friday 2022-04-08 and Monday 2022-04-11, the dates of that test, are in different weeks; Saturday 2022-04-09 is in the Friday's week, which follows from the calendar rather than from a test |
| Calendar.DayDistance | Todo/Repo/InMemTaskRepo.cs:141 | the distance is the non-negative number of days from either date to the other |
| Repo.IndexOfId | Todo/Repo/InMemTaskRepo.cs:59-63 | the position found holds the id and no earlier task has it; None exactly when no task has the id |
| Repo.TitleTaken | Todo/Repo/InMemTaskRepo.cs:26 | the `Find` over stored titles succeeds if and only if some stored title matches the given one ignoring case |
| Repo.AfterCreate | Todo/Repo/InMemTaskRepo.cs:17-34 | rejected exactly when the task is null or some stored title matches case-insensitively; otherwise the old list is kept and the task is appended at the end |
| Repo.AfterUpdate | Todo/Repo/InMemTaskRepo.cs:66-79 | fails exactly on an unknown id; otherwise only the first task with the id gets the new title, description and date; its id, completion and done, and every other task, stay as they were |
| Repo.AfterSetCompletion | Todo/Repo/InMemTaskRepo.cs:82-100 | any value outside 0..100 is rejected, even for an unknown id; an in-range value on a known id changes only that task's completion |
| Repo.AfterSetDone | Todo/Repo/InMemTaskRepo.cs:103-118 | fails exactly on an unknown id; otherwise only the first task with the id changes: Done becomes the given flag and Completion becomes 100 |
| Repo.AfterDelete | Todo/Repo/InMemTaskRepo.cs:36-47 | fails exactly on an unknown id; otherwise the list loses exactly the first task with the id and the rest keep their order |
| Repo.IsIncoming | Todo/Repo/InMemTaskRepo.cs:136-141 | the loop's test: a task that passes is not the reference (by id), and the offset it matches is not negative |
| Repo.IsThisWeek | Todo/Repo/InMemTaskRepo.cs:180-185 | the loop's test: a task that passes is not the reference (by id) and is at most six days from it |
| Repo.IncomingTasks | Todo/Repo/InMemTaskRepo.cs:128-148 | the reference definition of GetIncomingTasks: no longer than the store, and every task in it is stored, is not the reference, and is exactly the offset's number of days away |
| Repo.ThisWeekTasks | Todo/Repo/InMemTaskRepo.cs:172-192 | the reference definition of GetThisWeekTaks: no longer than the store, and every task in it is stored, is not the reference, and falls in the reference's week |
| Repo.InMemTaskRepo.constructor | Todo/Repo/InMemTaskRepo.cs:12-15 | a new store is empty |
| Repo.InMemTaskRepo.Create | Todo/Repo/InMemTaskRepo.cs:17-34 | returns true exactly when AfterCreate accepts; the list then becomes AfterCreate's result, and is otherwise unchanged |
| Repo.InMemTaskRepo.Delete | Todo/Repo/InMemTaskRepo.cs:36-47 | returns true exactly when the id is found; the list then becomes AfterDelete's result, and is otherwise unchanged |
| Repo.InMemTaskRepo.GetAll | Todo/Repo/InMemTaskRepo.cs:54-57 | returns the stored tasks in insertion order, and changes nothing |
| Repo.InMemTaskRepo.GetById | Todo/Repo/InMemTaskRepo.cs:59-64 | None exactly when no stored task has the id; otherwise the result has the id and is the first task that does |
| Repo.InMemTaskRepo.Update | Todo/Repo/InMemTaskRepo.cs:66-79 | returns true exactly when the id is found; the list then becomes AfterUpdate's result with "now" as the date, and is otherwise unchanged |
| Repo.InMemTaskRepo.SetCompletion | Todo/Repo/InMemTaskRepo.cs:82-100 | returns true exactly when AfterSetCompletion accepts; the list then becomes its result, and is otherwise unchanged |
| Repo.InMemTaskRepo.SetDone | Todo/Repo/InMemTaskRepo.cs:103-118 | returns true exactly when the id is found; the list then becomes AfterSetDone's result, and is otherwise unchanged |
| Repo.InMemTaskRepo.GetIncomingTasks | Todo/Repo/InMemTaskRepo.cs:128-148 | the loop returns IncomingTasks of the store: the tasks other than the reference whose day distance equals the offset, in store order; the store is not modified |
| Repo.InMemTaskRepo.GetThisWeekTaks | Todo/Repo/InMemTaskRepo.cs:172-192 | the loop returns ThisWeekTasks of the store: the tasks other than the reference in the reference's week, in store order; the store is not modified |
| RepoProperties.CreateKeepsTitlesUnique | Todo/Repo/InMemTaskRepo.cs:24-32 | a successful create keeps stored titles pairwise distinct ignoring case |
| RepoProperties.CreateThenGetById | Todo/Repo/InMemTaskRepo.cs:17-34 | after creating a task whose id is new, a lookup of that id finds the appended task, and ids stay unique |
| RepoProperties.CreateDuplicateIdIsShadowed | Todo/Repo/InMemTaskRepo.cs:17-34 | create accepts a task whose id is already stored, and a lookup of that id then finds the older task |
| RepoProperties.CreateCompletionsValid | Todo/Repo/InMemTaskRepo.cs:17-34 | after a successful create, all completions stay in 0..100 if and only if the new task's completion is in 0..100 |
| RepoProperties.CreateNewTaskKeepsCompletionsValid | Todo/Controllers/TodoTaskController.cs:57-63 | a task built with the default Completion 0, as the create endpoint builds it, keeps every stored completion in 0..100 once created |
| RepoProperties.MutationsKeepIdsUnique | Todo/Repo/InMemTaskRepo.cs:36-118 | update, set-completion, set-done and delete keep ids unique |
| RepoProperties.MutationsKeepCompletionsValid | Todo/Repo/InMemTaskRepo.cs:82-118 | update, set-completion, set-done and delete keep every completion in 0..100 |
| RepoProperties.UpdateCanDuplicateTitles | Todo/Repo/InMemTaskRepo.cs:66-79 | renaming a task to a title that matches another task's title succeeds and breaks title uniqueness |
| RepoProperties.SetDoneFalseCompletes | Todo/Repo/InMemTaskRepo.cs:112-115 | clearing Done still sets Completion to 100 |
| RepoProperties.DeleteThenNotFound | Todo/Repo/InMemTaskRepo.cs:36-47 | when ids are unique, a lookup after deleting an id finds nothing |
| RepoProperties.DeleteRemovesFirstMatchOnly | Todo/Repo/InMemTaskRepo.cs:36-47 | when two tasks share an id, delete removes only the first one and a lookup then finds the second |
| RepoProperties.IncomingTasksMembers | Todo/Repo/InMemTaskRepo.cs:128-148 | a task is in the incoming list if and only if it is stored, its id differs from the reference's, and its day distance equals the offset |
| RepoProperties.IncomingTasksNegativeOffset | Todo/Repo/InMemTaskRepo.cs:141 | a negative offset returns no tasks |
| RepoProperties.IncomingTasksLooksBothWays | Todo/Repo/InMemTaskRepo.cs:140-141 | with offset 1, both the day before and the day after the reference are returned |
| RepoProperties.ThisWeekTasksMembers | Todo/Repo/InMemTaskRepo.cs:172-192 | a task is in the this-week list if and only if it is stored, its id differs from the reference's, and its week number equals the reference's |
| RepoProperties.SameDayTasksAreThisWeek | Todo/Repo/InMemTaskRepo.cs:128-192 | every task returned for offset 0 is also returned by the this-week query |
| RepoProperties.QueriesKeepStoreOrder | Todo/Repo/InMemTaskRepo.cs:133-145 | appending a task to the store can only append that task to either query's result |
| RepoProperties.SameDayExample | TodoTaskNUnitTests/TodoTaskTest.cs:895-946 | tasks dated 04-07, 04-07 and 04-08, with the first as reference, give only the second |
| RepoProperties.NextDayExample | TodoTaskNUnitTests/TodoTaskTest.cs:1102-1153 | tasks dated 04-08 (the reference), 04-09 and 04-08, with offset 1, give only the 04-09 task |
| RepoProperties.ThisWeekExample | TodoTaskNUnitTests/TodoTaskTest.cs:1262-1309 | a store of Friday 04-08 (the reference) and Monday 04-11 gives an empty result, as that test expects; a Saturday 04-09 task would be returned, which follows from the calendar rather than from a test |

## Left out

- `DeleteAll` only throws `NotImplementedException` (Todo/Repo/InMemTaskRepo.cs:49-52). It has no behaviour to model.
- Reference aliasing is not modelled. Tasks are values. In the source, `Create` stores the caller's object, `GetAll` returns the live list, and `Update`, `SetCompletion` and `SetDone` change the found object in place. The model writes the changed record back into the list at the same position.
- `List.Remove(task)` finds the task by reference. The model removes the first task with the id. This is the same element: one object cannot be stored twice, because adding it again fails the title check against itself.
- Null inputs other than `Create`'s task are not modelled. This covers a null `self` in `Update` and in the queries, and null titles. The source throws or compares nulls there.
- Time of day is not modelled. `DateTime.Now` becomes a `now` day parameter of `Update`. Every date comparison in the store goes through `.Date`, so a day number carries everything the store reads.
- Dates have no upper bound: `DateTime`'s maximum year 9999 is not enforced. Real Gregorian calendar conversion is not modelled either. The test dates are given as day numbers; for example, 2022-04-08 is day 738252.
- `Guid.NewGuid()` is not modelled. The caller supplies ids, as the controller does.
- Titles.ToUpperOrdinal: maps only ASCII letters. The upper-casing of non-ASCII letters that `OrdinalIgnoreCase` also performs is not modelled.
- Calendar.WeekStart: models only the default `weekStartsOn = Monday`. It is the only week start the store uses.
- Thread safety is not modelled. The model is sequential.
- The HTTP controller, the DTOs and the test harness are not part of this model.
