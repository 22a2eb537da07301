/** The in-memory task store `InMemTaskRepo` (Todo/Repo/InMemTaskRepo.cs).
    The store owns one ordered list of tasks. Each operation is specified by
    a function on that list, below; the class at the end holds the list and
    changes it as the source does. */
module Repo {
  import opened Models
  import opened Lists
  import opened Titles
  import opened Calendar

  // ---------------------------------------------------------------------
  // Lookups

  /** Position of the first task with this id (`Tasks.Find(x => x.Id == id)`).
      Ids are not checked for uniqueness, so later tasks with the same id are
      never reached. */
  function IndexOfId(ts: seq<TodoTask>, id: Guid): (r: Option<nat>)
    ensures r.Some? ==> r.value < |ts| && ts[r.value].id == id
    ensures r.Some? ==> forall j :: 0 <= j < r.value ==> ts[j].id != id
    ensures r.None? <==> forall j :: 0 <= j < |ts| ==> ts[j].id != id
  {
    FindIndex(ts, (t: TodoTask) => t.id == id)
  }

  /** Some stored title matches `title` under OrdinalIgnoreCase. */
  predicate TitleTaken(ts: seq<TodoTask>, title: string): (r: bool)
    ensures r <==> exists i :: 0 <= i < |ts| && SameTitle(ts[i].title, title)
  {
    Find(ts, (t: TodoTask) => SameTitle(t.title, title)).Some?
  }

  // ---------------------------------------------------------------------
  // Store invariants

  /** No two stored titles match under OrdinalIgnoreCase. */
  ghost predicate TitlesUnique(ts: seq<TodoTask>) {
    forall i, j :: 0 <= i < j < |ts| ==> !SameTitle(ts[i].title, ts[j].title)
  }

  /** No two stored tasks share an id. */
  ghost predicate IdsUnique(ts: seq<TodoTask>) {
    forall i, j :: 0 <= i < j < |ts| ==> ts[i].id != ts[j].id
  }

  /** Every stored completion is a percentage 0..100. */
  ghost predicate CompletionsValid(ts: seq<TodoTask>) {
    forall i :: 0 <= i < |ts| ==> ValidCompletion(ts[i])
  }

  // ---------------------------------------------------------------------
  // The operations as functions of the list: None means the operation
  // returns false and leaves the list as it was.

  /** Create: rejects a null task and a task whose title matches a stored one
      case-insensitively; otherwise appends the task at the end. */
  function AfterCreate(ts: seq<TodoTask>, task: Option<TodoTask>): (r: Option<seq<TodoTask>>)
    ensures r.None? <==>
      task.None? || exists i :: 0 <= i < |ts| && SameTitle(ts[i].title, task.value.title)
    ensures r.Some? ==> |r.value| == |ts| + 1 && r.value[..|ts|] == ts && r.value[|ts|] == task.value
  {
    if task.None? then None
    else if TitleTaken(ts, task.value.title) then None
    else Some(ts + [task.value])
  }

  /** Update: on the first task with this id, sets Title and Description from
      `self` and CreatedDate to `now`; nothing else changes, and title
      uniqueness is not checked again. */
  function AfterUpdate(ts: seq<TodoTask>, id: Guid, self: TodoTask, now: Day): (r: Option<seq<TodoTask>>)
    ensures r.Some? <==> IndexOfId(ts, id).Some?
    ensures r.Some? ==>
      var i := IndexOfId(ts, id).value;
      && |r.value| == |ts|
      && r.value[i].title == self.title
      && r.value[i].description == self.description
      && r.value[i].createdDate == now
      && r.value[i].id == ts[i].id
      && r.value[i].completion == ts[i].completion
      && r.value[i].done == ts[i].done
      && forall j :: 0 <= j < |ts| && j != i ==> r.value[j] == ts[j]
  {
    match IndexOfId(ts, id)
    case None => None
    case Some(i) =>
      var task := ts[i];
      var task := task.(title := self.title);
      var task := task.(description := self.description);
      var task := task.(createdDate := now);
      Some(ts[i := task])
  }

  /** SetCompletion: rejects a value outside 0..100 before looking the id up,
      then rejects an unknown id; otherwise sets the Completion of the first
      task with this id and nothing else. */
  function AfterSetCompletion(ts: seq<TodoTask>, id: Guid, progress: Short): (r: Option<seq<TodoTask>>)
    ensures (progress < 0 || progress > 100) ==> r.None?
    ensures r.Some? <==> 0 <= progress <= 100 && IndexOfId(ts, id).Some?
    ensures r.Some? ==>
      var i := IndexOfId(ts, id).value;
      && |r.value| == |ts|
      && r.value[i] == ts[i].(completion := progress)
      && forall j :: 0 <= j < |ts| && j != i ==> r.value[j] == ts[j]
  {
    if progress < 0 || progress > 100 then None
    else match IndexOfId(ts, id)
      case None => None
      case Some(i) => Some(ts[i := ts[i].(completion := progress)])
  }

  /** SetDone: on the first task with this id, sets Done to `isDone` and
      Completion to 100, whichever value `isDone` has. */
  function AfterSetDone(ts: seq<TodoTask>, id: Guid, isDone: bool): (r: Option<seq<TodoTask>>)
    ensures r.Some? <==> IndexOfId(ts, id).Some?
    ensures r.Some? ==>
      var i := IndexOfId(ts, id).value;
      && |r.value| == |ts|
      && r.value[i] == ts[i].(done := isDone, completion := 100)
      && forall j :: 0 <= j < |ts| && j != i ==> r.value[j] == ts[j]
  {
    match IndexOfId(ts, id)
    case None => None
    case Some(i) =>
      var task := ts[i].(done := isDone);
      var task := task.(completion := 100);
      Some(ts[i := task])
  }

  /** Delete: removes the first task with this id; the others keep their
      relative order. */
  function AfterDelete(ts: seq<TodoTask>, id: Guid): (r: Option<seq<TodoTask>>)
    ensures r.Some? <==> IndexOfId(ts, id).Some?
    ensures r.Some? ==>
      var i := IndexOfId(ts, id).value;
      && |r.value| == |ts| - 1
      && r.value == ts[..i] + ts[i + 1..]
  {
    match IndexOfId(ts, id)
    case None => None
    case Some(i) => Some(RemoveAt(ts, i))
  }

  // ---------------------------------------------------------------------
  // The date-relative queries

  /** A task that GetIncomingTasks reports for reference `self` and offset
      `offSet`: not `self` by id, and its calendar day `offSet` days away from
      self's, before or after. */
  predicate IsIncoming(t: TodoTask, self: TodoTask, offSet: Short): (r: bool)
    ensures r ==> t.id != self.id && offSet >= 0
  {
    t.id != self.id && DayDistance(t.createdDate, self.createdDate) == offSet as int
  }

  /** A task that GetThisWeekTaks reports for reference `self`: not `self`
      by id, and in self's Monday-to-Sunday week. */
  predicate IsThisWeek(t: TodoTask, self: TodoTask): (r: bool)
    ensures r ==> t.id != self.id && DayDistance(t.createdDate, self.createdDate) <= 6
  {
    t.id != self.id && AreFallingInSameWeek(t.createdDate, self.createdDate)
  }

  /** What GetIncomingTasks returns: the incoming tasks in store order. */
  function IncomingTasks(ts: seq<TodoTask>, self: TodoTask, offSet: Short): (r: seq<TodoTask>)
    ensures |r| <= |ts|
    ensures forall t :: t in r ==>
      t in ts && t.id != self.id && DayDistance(t.createdDate, self.createdDate) == offSet as int
  {
    Filter(ts, (t: TodoTask) => IsIncoming(t, self, offSet))
  }

  /** What GetThisWeekTaks returns: the same-week tasks in store order. */
  function ThisWeekTasks(ts: seq<TodoTask>, self: TodoTask): (r: seq<TodoTask>)
    ensures |r| <= |ts|
    ensures forall t :: t in r ==>
      t in ts && t.id != self.id && AreFallingInSameWeek(t.createdDate, self.createdDate)
  {
    Filter(ts, (t: TodoTask) => IsThisWeek(t, self))
  }

  // ---------------------------------------------------------------------
  // The store

  class InMemTaskRepo {
    /** The tasks, in insertion order. */
    var tasks: seq<TodoTask>

    constructor ()
      ensures tasks == []
    {
      tasks := [];
    }

    method Create(task: Option<TodoTask>) returns (ok: bool)
      modifies this
      ensures ok <==> AfterCreate(old(tasks), task).Some?
      ensures tasks == if ok then AfterCreate(old(tasks), task).value else old(tasks)
    {
      if task.None? {
        return false;
      }
      if Find(tasks, (t: TodoTask) => SameTitle(t.title, task.value.title)).Some? {
        return false;
      }
      tasks := tasks + [task.value];
      return true;
    }

    method Delete(id: Guid) returns (ok: bool)
      modifies this
      ensures ok <==> AfterDelete(old(tasks), id).Some?
      ensures tasks == if ok then AfterDelete(old(tasks), id).value else old(tasks)
    {
      var found := IndexOfId(tasks, id);
      if found.None? {
        return false;
      }
      tasks := RemoveAt(tasks, found.value);
      return true;
    }

    /** The live list, in insertion order. */
    method GetAll() returns (r: seq<TodoTask>)
      ensures r == tasks
    {
      r := tasks;
    }

    /** The first task with this id, or None where the source returns null. */
    function GetById(id: Guid): (r: Option<TodoTask>)
      reads this
      ensures r.None? <==> forall j :: 0 <= j < |tasks| ==> tasks[j].id != id
      ensures r.Some? ==> r.value.id == id && r.value == tasks[IndexOfId(tasks, id).value]
    {
      Find(tasks, (t: TodoTask) => t.id == id)
    }

    method Update(id: Guid, self: TodoTask, now: Day) returns (ok: bool)
      modifies this
      ensures ok <==> AfterUpdate(old(tasks), id, self, now).Some?
      ensures tasks == if ok then AfterUpdate(old(tasks), id, self, now).value else old(tasks)
    {
      var found := IndexOfId(tasks, id);
      if found.None? {
        return false;
      }
      var i := found.value;
      var task := tasks[i];
      task := task.(title := self.title);
      task := task.(description := self.description);
      task := task.(createdDate := now);
      tasks := tasks[i := task];
      return true;
    }

    method SetCompletion(id: Guid, progress: Short) returns (ok: bool)
      modifies this
      ensures ok <==> AfterSetCompletion(old(tasks), id, progress).Some?
      ensures tasks == if ok then AfterSetCompletion(old(tasks), id, progress).value else old(tasks)
    {
      if progress < 0 || progress > 100 {
        return false;
      }
      var found := IndexOfId(tasks, id);
      if found.None? {
        return false;
      }
      var i := found.value;
      tasks := tasks[i := tasks[i].(completion := progress)];
      return true;
    }

    method SetDone(id: Guid, isDone: bool) returns (ok: bool)
      modifies this
      ensures ok <==> AfterSetDone(old(tasks), id, isDone).Some?
      ensures tasks == if ok then AfterSetDone(old(tasks), id, isDone).value else old(tasks)
    {
      var found := IndexOfId(tasks, id);
      if found.None? {
        return false;
      }
      var i := found.value;
      var task := tasks[i];
      task := task.(done := isDone);
      task := task.(completion := 100);
      tasks := tasks[i := task];
      return true;
    }

    /** Scans the store once and collects the incoming tasks, skipping the
        reference task itself. */
    method GetIncomingTasks(self: TodoTask, offSet: Short := 0) returns (r: seq<TodoTask>)
      ensures r == IncomingTasks(tasks, self, offSet)
    {
      r := [];
      var i := 0;
      while i < |tasks|
        invariant 0 <= i <= |tasks|
        invariant r == IncomingTasks(tasks[..i], self, offSet)
      {
        var task := tasks[i];
        FilterSnoc(tasks, i, (t: TodoTask) => IsIncoming(t, self, offSet));
        i := i + 1;
        if task.id == self.id {
          continue;
        }
        if DayDistance(task.createdDate, self.createdDate) == offSet as int {
          r := r + [task];
        }
      }
      assert tasks[..i] == tasks;
    }

    /** Scans the store once and collects the tasks of the reference task's
        week, skipping the reference task itself. */
    method GetThisWeekTaks(self: TodoTask) returns (r: seq<TodoTask>)
      ensures r == ThisWeekTasks(tasks, self)
    {
      r := [];
      var i := 0;
      while i < |tasks|
        invariant 0 <= i <= |tasks|
        invariant r == ThisWeekTasks(tasks[..i], self)
      {
        var task := tasks[i];
        FilterSnoc(tasks, i, (t: TodoTask) => IsThisWeek(t, self));
        i := i + 1;
        if task.id == self.id {
          continue;
        }
        if AreFallingInSameWeek(task.createdDate, self.createdDate) {
          r := r + [task];
        }
      }
      assert tasks[..i] == tasks;
    }
  }
}
