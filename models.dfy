/** The task record of the store (Todo/Models/TodoTask.cs). */
module Models {

  /** A .NET `Guid`: 128 opaque bits, only ever compared for equality. */
  type Guid = bv128

  /** A .NET `short` (16-bit signed integer). */
  newtype Short = x: int | -0x8000 <= x < 0x8000

  /** A calendar date as a whole day number. Day 0 is 0001-01-01, the first
      `DateTime`, which is a Monday. The store only ever looks at
      `CreatedDate.Date`, so the time of day is not part of the model. */
  type Day = nat

  /** One task. `completion` is a percentage; the store keeps it in 0..100
      through SetCompletion and SetDone (see Repo.CompletionsValid). */
  datatype TodoTask = TodoTask(
    id: Guid,
    title: string,
    createdDate: Day,
    description: string,
    completion: Short,
    done: bool)

  /** Completion lies in the percentage range 0..100. */
  predicate ValidCompletion(t: TodoTask) {
    0 <= t.completion <= 100
  }

  /** A task as the object initialisers leave it: the caller supplies id,
      title, description and creation date; Completion starts at 0 and Done
      at false. */
  function NewTodoTask(id: Guid, title: string, description: string, now: Day): (t: TodoTask)
    ensures t.id == id && t.title == title && t.description == description && t.createdDate == now
    ensures t.completion == 0 && !t.done
    ensures ValidCompletion(t)
  {
    TodoTask(id, title, now, description, 0, false)
  }
}
