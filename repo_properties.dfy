/** What the store's operations promise across calls: the invariants they
    keep or break, how they combine, and the examples of the repository's
    tests, stated on the functions that specify InMemTaskRepo. */
module RepoProperties {
  import opened Models
  import opened Lists
  import opened Titles
  import opened Calendar
  import opened Repo

  // ---------------------------------------------------------------------
  // Create

  /** A successful Create keeps stored titles pairwise distinct under
      OrdinalIgnoreCase. */
  lemma CreateKeepsTitlesUnique(ts: seq<TodoTask>, task: Option<TodoTask>)
    requires TitlesUnique(ts)
    requires AfterCreate(ts, task).Some?
    ensures TitlesUnique(AfterCreate(ts, task).value)
  {
  }

  /** Create never checks ids. When the new id is not yet stored, the
      appended task is the one GetById finds for it and ids stay unique. */
  lemma CreateThenGetById(ts: seq<TodoTask>, task: TodoTask)
    requires IndexOfId(ts, task.id).None?
    requires AfterCreate(ts, Some(task)).Some?
    ensures IndexOfId(AfterCreate(ts, Some(task)).value, task.id) == Some(|ts|)
    ensures IdsUnique(ts) ==> IdsUnique(AfterCreate(ts, Some(task)).value)
  {
  }

  /** A stored task whose id is repeated by a later Create hides the later
      task from GetById. */
  lemma CreateDuplicateIdIsShadowed(t1: TodoTask, t2: TodoTask)
    requires t1.id == t2.id && !SameTitle(t1.title, t2.title)
    ensures AfterCreate([t1], Some(t2)) == Some([t1, t2])
    ensures IndexOfId([t1, t2], t2.id) == Some(0)
  {
    assert !TitleTaken([t1], t2.title) by {
      assert forall i :: 0 <= i < |[t1]| ==> [t1][i] == t1;
    }
    assert [t1] + [t2] == [t1, t2];
  }

  /** A successful Create keeps every completion in 0..100 exactly when the
      new task's completion is in range: Create does not check it. */
  lemma CreateCompletionsValid(ts: seq<TodoTask>, task: TodoTask)
    requires CompletionsValid(ts)
    requires AfterCreate(ts, Some(task)).Some?
    ensures CompletionsValid(AfterCreate(ts, Some(task)).value) <==> ValidCompletion(task)
  {
  }

  /** A task built as the controller builds it (Completion 0) keeps every
      completion in 0..100 when Create stores it. */
  lemma CreateNewTaskKeepsCompletionsValid(ts: seq<TodoTask>, id: Guid, title: string, description: string, now: Day)
    requires CompletionsValid(ts)
    requires AfterCreate(ts, Some(NewTodoTask(id, title, description, now))).Some?
    ensures CompletionsValid(AfterCreate(ts, Some(NewTodoTask(id, title, description, now))).value)
  {
    CreateCompletionsValid(ts, NewTodoTask(id, title, description, now));
  }

  // ---------------------------------------------------------------------
  // Update, SetCompletion, SetDone, Delete

  /** Update, SetCompletion, SetDone and Delete never change an id, so they
      keep ids unique. */
  lemma MutationsKeepIdsUnique(ts: seq<TodoTask>, id: Guid, self: TodoTask, now: Day, progress: Short, isDone: bool)
    requires IdsUnique(ts)
    ensures AfterUpdate(ts, id, self, now).Some? ==> IdsUnique(AfterUpdate(ts, id, self, now).value)
    ensures AfterSetCompletion(ts, id, progress).Some? ==> IdsUnique(AfterSetCompletion(ts, id, progress).value)
    ensures AfterSetDone(ts, id, isDone).Some? ==> IdsUnique(AfterSetDone(ts, id, isDone).value)
    ensures AfterDelete(ts, id).Some? ==> IdsUnique(AfterDelete(ts, id).value)
  {
    if AfterUpdate(ts, id, self, now).Some? {
      var after := AfterUpdate(ts, id, self, now).value;
      assert forall j :: 0 <= j < |ts| ==> after[j].id == ts[j].id;
    }
    if AfterSetCompletion(ts, id, progress).Some? {
      var after := AfterSetCompletion(ts, id, progress).value;
      assert forall j :: 0 <= j < |ts| ==> after[j].id == ts[j].id;
    }
    if AfterSetDone(ts, id, isDone).Some? {
      var after := AfterSetDone(ts, id, isDone).value;
      assert forall j :: 0 <= j < |ts| ==> after[j].id == ts[j].id;
    }
    if AfterDelete(ts, id).Some? {
      var i := IndexOfId(ts, id).value;
      var after := AfterDelete(ts, id).value;
      assert forall j :: 0 <= j < |after| ==> after[j] == if j < i then ts[j] else ts[j + 1];
    }
  }

  /** Update, SetCompletion, SetDone and Delete keep every completion in
      0..100: SetCompletion only stores in-range values and SetDone stores
      100. */
  lemma MutationsKeepCompletionsValid(ts: seq<TodoTask>, id: Guid, self: TodoTask, now: Day, progress: Short, isDone: bool)
    requires CompletionsValid(ts)
    ensures AfterUpdate(ts, id, self, now).Some? ==> CompletionsValid(AfterUpdate(ts, id, self, now).value)
    ensures AfterSetCompletion(ts, id, progress).Some? ==> CompletionsValid(AfterSetCompletion(ts, id, progress).value)
    ensures AfterSetDone(ts, id, isDone).Some? ==> CompletionsValid(AfterSetDone(ts, id, isDone).value)
    ensures AfterDelete(ts, id).Some? ==> CompletionsValid(AfterDelete(ts, id).value)
  {
  }

  /** Update does not check title uniqueness: renaming one of two tasks to
      a title matching the other's leaves two matching titles. */
  lemma UpdateCanDuplicateTitles(a: TodoTask, b: TodoTask, title: string, now: Day)
    requires a.id != b.id && !SameTitle(a.title, b.title) && SameTitle(a.title, title)
    ensures TitlesUnique([a, b])
    ensures AfterUpdate([a, b], b.id, b.(title := title), now).Some?
    ensures !TitlesUnique(AfterUpdate([a, b], b.id, b.(title := title), now).value)
  {
    assert [a, b][1].id == b.id;
    var after := AfterUpdate([a, b], b.id, b.(title := title), now).value;
    assert after[0] == a && after[1].title == title;
  }

  /** SetDone(id, false) still forces the completion to 100. */
  lemma SetDoneFalseCompletes(ts: seq<TodoTask>, id: Guid)
    requires IndexOfId(ts, id).Some?
    ensures var i := IndexOfId(ts, id).value;
      var after := AfterSetDone(ts, id, false).value;
      !after[i].done && after[i].completion == 100
  {
  }

  /** With unique ids, Delete followed by GetById on the same id finds
      nothing. */
  lemma DeleteThenNotFound(ts: seq<TodoTask>, id: Guid)
    requires IdsUnique(ts)
    requires AfterDelete(ts, id).Some?
    ensures IndexOfId(AfterDelete(ts, id).value, id).None?
  {
  }

  /** Without unique ids, Delete removes only the first task with the id,
      and GetById then finds the second. */
  lemma DeleteRemovesFirstMatchOnly(t1: TodoTask, t2: TodoTask)
    requires t1.id == t2.id && t1 != t2
    ensures AfterDelete([t1, t2], t1.id) == Some([t2])
    ensures IndexOfId([t2], t1.id) == Some(0)
  {
    assert [t1, t2][..0] + [t1, t2][1..] == [t2];
  }

  // ---------------------------------------------------------------------
  // The date-relative queries

  /** GetIncomingTasks returns exactly the stored tasks other than the
      reference (by id) whose day lies `offSet` days before or after the
      reference's. */
  lemma IncomingTasksMembers(ts: seq<TodoTask>, self: TodoTask, offSet: Short, t: TodoTask)
    ensures t in IncomingTasks(ts, self, offSet) <==>
      t in ts && t.id != self.id && DayDistance(t.createdDate, self.createdDate) == offSet as int
  {
    FilterMembership(ts, (u: TodoTask) => IsIncoming(u, self, offSet), t);
  }

  /** A negative offset matches no task. */
  lemma IncomingTasksNegativeOffset(ts: seq<TodoTask>, self: TodoTask, offSet: Short)
    requires offSet < 0
    ensures IncomingTasks(ts, self, offSet) == []
  {
    var r := IncomingTasks(ts, self, offSet);
    if r != [] {
      IncomingTasksMembers(ts, self, offSet, r[0]);
      assert false;
    }
  }

  /** The distance is absolute: a task dated the day before the reference is
      reported with offset 1, as one dated the day after is. */
  lemma IncomingTasksLooksBothWays(self: TodoTask, before: TodoTask, after: TodoTask)
    requires before.id != self.id && after.id != self.id
    requires before.createdDate + 1 == self.createdDate
    requires after.createdDate == self.createdDate + 1
    ensures IncomingTasks([before, after], self, 1) == [before, after]
  {
    var keep := (u: TodoTask) => IsIncoming(u, self, 1);
    assert [before, after][1..] == [after];
    assert Filter([after], keep) == [after];
  }

  /** GetThisWeekTaks returns exactly the stored tasks other than the
      reference (by id) that fall in the reference's Monday-based week. */
  lemma ThisWeekTasksMembers(ts: seq<TodoTask>, self: TodoTask, t: TodoTask)
    ensures t in ThisWeekTasks(ts, self) <==>
      t in ts && t.id != self.id && t.createdDate / 7 == self.createdDate / 7
  {
    FilterMembership(ts, (u: TodoTask) => IsThisWeek(u, self), t);
    SameWeekIffSameWeekNumber(t.createdDate, self.createdDate);
  }

  /** Every task of the reference's day is also a task of its week. */
  lemma SameDayTasksAreThisWeek(ts: seq<TodoTask>, self: TodoTask, t: TodoTask)
    requires t in IncomingTasks(ts, self, 0)
    ensures t in ThisWeekTasks(ts, self)
  {
    IncomingTasksMembers(ts, self, 0, t);
    ThisWeekTasksMembers(ts, self, t);
  }

  /** Both queries keep store order: tasks stored earlier are reported
      earlier, so appending a task can only append to their results. */
  lemma QueriesKeepStoreOrder(ts: seq<TodoTask>, t: TodoTask, self: TodoTask, offSet: Short)
    ensures IncomingTasks(ts + [t], self, offSet) ==
      IncomingTasks(ts, self, offSet) + (if IsIncoming(t, self, offSet) then [t] else [])
    ensures ThisWeekTasks(ts + [t], self) ==
      ThisWeekTasks(ts, self) + (if IsThisWeek(t, self) then [t] else [])
  {
    FilterAppend(ts, [t], (u: TodoTask) => IsIncoming(u, self, offSet));
    FilterAppend(ts, [t], (u: TodoTask) => IsThisWeek(u, self));
    assert [t][1..] == [];
  }

  // ---------------------------------------------------------------------
  // The examples of the repository's tests (day 738251 is 2022-04-07)

  /** Same day: tasks on 04-07, 04-07 and 04-08 with the first as reference
      give only the second. */
  lemma SameDayExample(a: TodoTask, b: TodoTask, c: TodoTask)
    requires a.id != b.id && a.id != c.id
    requires a.createdDate == 738251 && b.createdDate == 738251 && c.createdDate == 738252
    ensures IncomingTasks([a, b, c], a, 0) == [b]
  {
    assert [] + [a] == [a] && [a] + [b] == [a, b] && [a, b] + [c] == [a, b, c];
    QueriesKeepStoreOrder([], a, a, 0);
    QueriesKeepStoreOrder([a], b, a, 0);
    QueriesKeepStoreOrder([a, b], c, a, 0);
  }

  /** Next day: tasks on 04-08 (reference), 04-09 and 04-08 give only the
      04-09 task. */
  lemma NextDayExample(a: TodoTask, b: TodoTask, c: TodoTask)
    requires a.id != b.id && a.id != c.id
    requires a.createdDate == 738252 && b.createdDate == 738253 && c.createdDate == 738252
    ensures IncomingTasks([a, b, c], a, 1) == [b]
  {
    assert [] + [a] == [a] && [a] + [b] == [a, b] && [a, b] + [c] == [a, b, c];
    QueriesKeepStoreOrder([], a, a, 1);
    QueriesKeepStoreOrder([a], b, a, 1);
    QueriesKeepStoreOrder([a, b], c, a, 1);
  }

  /** This week: with Friday 04-08 as reference, Monday 04-11 is in the next
      week, so a store of those two gives nothing; a Saturday 04-09 task
      would share the reference's week. */
  lemma ThisWeekExample(fri: TodoTask, sat: TodoTask, mon: TodoTask)
    requires fri.id != sat.id && fri.id != mon.id
    requires fri.createdDate == 738252 && sat.createdDate == 738253 && mon.createdDate == 738255
    ensures ThisWeekTasks([fri, mon], fri) == []
    ensures ThisWeekTasks([fri, sat, mon], fri) == [sat]
  {
    SameWeekExamples();
    assert [] + [fri] == [fri] && [fri] + [mon] == [fri, mon];
    assert [fri] + [sat] == [fri, sat] && [fri, sat] + [mon] == [fri, sat, mon];
    QueriesKeepStoreOrder([], fri, fri, 0);
    QueriesKeepStoreOrder([fri], mon, fri, 0);
    QueriesKeepStoreOrder([fri], sat, fri, 0);
    QueriesKeepStoreOrder([fri, sat], mon, fri, 0);
  }
}
