/** The todo document shared by components/TodoList.tsx and
    components/TodoItem.tsx. Timestamps, ISO strings in the documents, are
    integers here (milliseconds), so that `new Date(x).getTime()` is `x`. */
module TodoData {

  datatype Priority = Low | Medium | High

  /** An optional property of a JavaScript object: missing, `null`, or set.
      Object spread copies `null` but skips a missing property. */
  datatype Field<+T> = Absent | Null | Present(value: T)

  datatype Todo = Todo(
    id: string,
    title: string,
    description: Field<string>,
    completed: bool,
    priority: Priority,
    dueDate: Field<string>,
    attachments: Field<seq<string>>,
    createdAt: int,
    updatedAt: int,
    userId: string)

  /** The attachment ids a todo lists; none when the property is missing or null. */
  function Attachments(t: Todo): (files: seq<string>)
    ensures t.attachments.Present? ==> files == t.attachments.value
    ensures !t.attachments.Present? ==> files == []
  {
    if t.attachments.Present? then t.attachments.value else []
  }

  /** `description || ''`: the description, or empty when missing or null. */
  function DescriptionText(t: Todo): (s: string)
    ensures t.description.Present? ==> s == t.description.value
    ensures !t.description.Present? ==> s == ""
  {
    if t.description.Present? then t.description.value else ""
  }
}
