/** One row of the todo list, components/TodoItem.tsx: a toggle, an inline
    editor with its own title/description buffers, and a delete that first
    removes the todo's attachments from storage, one after another.

    Each awaited backend call is a parameter saying whether it succeeded;
    the methods return the calls they issued, whether `onUpdate` (the list's
    reload) was called, and the alert raised, if any. */
module TodoItem {
  import opened Common
  import opened TodoData

  const UpdateFailedAlert := "Failed to update todo"
  const EmptyTitleAlert := "Title cannot be empty"
  const DeleteFailedAlert := "Failed to delete todo"

  /** The fields sent by `updateTodo`. */
  datatype TodoUpdate =
    | CompletionUpdate(completed: bool, updatedAt: int)
    | ContentUpdate(title: string, description: string, updatedAt: int)

  datatype UpdateCall = UpdateCall(todoId: string, update: TodoUpdate)

  datatype DeleteCall = DeleteFileCall(fileId: string) | DeleteTodoCall(todoId: string)

  /** The calls of the delete handler from the `i`-th attachment on, given
      which `deleteFile` calls succeed. */
  function DeleteCalls(files: seq<string>, todoId: string, fileOk: nat -> bool, i: nat): (calls: seq<DeleteCall>)
    requires i <= |files|
    ensures 1 <= |calls| <= |files| - i + 1
    decreases |files| - i
  {
    if i == |files| then [DeleteTodoCall(todoId)]
    else if fileOk(i) then [DeleteFileCall(files[i])] + DeleteCalls(files, todoId, fileOk, i + 1)
    else [DeleteFileCall(files[i])]
  }

  /** The shape of the delete sequence: each attachment in list order, each
      but the last call a success; it runs to the todo itself exactly when
      every attachment is deleted, and otherwise ends with the failed one. */
  lemma {:induction false} DeleteCallsShape(files: seq<string>, todoId: string, fileOk: nat -> bool, i: nat)
    requires i <= |files|
    ensures var calls := DeleteCalls(files, todoId, fileOk, i);
      && (forall k :: 0 <= k < |calls| - 1 ==> calls[k] == DeleteFileCall(files[i + k]) && fileOk(i + k))
      && (|calls| == |files| - i + 1 <==> forall k :: i <= k < |files| ==> fileOk(k))
      && (|calls| == |files| - i + 1 ==> calls[|calls| - 1] == DeleteTodoCall(todoId))
      && (|calls| <= |files| - i ==>
            calls[|calls| - 1] == DeleteFileCall(files[i + |calls| - 1]) && !fileOk(i + |calls| - 1))
    decreases |files| - i
  {
    if i < |files| && fileOk(i) {
      DeleteCallsShape(files, todoId, fileOk, i + 1);
      var rest := DeleteCalls(files, todoId, fileOk, i + 1);
      var calls := DeleteCalls(files, todoId, fileOk, i);
      assert calls == [DeleteFileCall(files[i])] + rest;
      forall k | 0 <= k < |calls| - 1
        ensures calls[k] == DeleteFileCall(files[i + k]) && fileOk(i + k)
      {
        if k > 0 {
          assert calls[k] == rest[k - 1];
          assert rest[k - 1] == DeleteFileCall(files[i + 1 + (k - 1)]) && fileOk(i + 1 + (k - 1));
        }
      }
      assert (forall k :: i + 1 <= k < |files| ==> fileOk(k)) ==> (forall k :: i <= k < |files| ==> fileOk(k));
    }
  }

  /** The todo is deleted only after all of its attachments. */
  lemma TodoDeletedOnlyAfterAllFiles(files: seq<string>, todoId: string, fileOk: nat -> bool)
    ensures DeleteTodoCall(todoId) in DeleteCalls(files, todoId, fileOk, 0) <==>
              forall k :: 0 <= k < |files| ==> fileOk(k)
  {
    DeleteCallsShape(files, todoId, fileOk, 0);
    var calls := DeleteCalls(files, todoId, fileOk, 0);
    if DeleteTodoCall(todoId) in calls {
      var k :| 0 <= k < |calls| && calls[k] == DeleteTodoCall(todoId);
      assert k == |calls| - 1;
    }
  }

  class TodoItemView {
    var todo: Todo
    var isEditing: bool
    var editTitle: string
    var editDescription: string
    var isUpdating: bool

    /** The initial state: not editing, buffers holding the title and the
        description (empty when there is none). */
    constructor (t: Todo)
      ensures todo == t && !isEditing && !isUpdating
      ensures editTitle == t.title && editDescription == DescriptionText(t)
    {
      todo := t;
      isEditing := false;
      editTitle := t.title;
      editDescription := DescriptionText(t);
      isUpdating := false;
    }

    /** The edit button. */
    method StartEdit()
      modifies this
      ensures todo == old(todo)
      ensures isEditing
      ensures editTitle == old(editTitle) && editDescription == old(editDescription) && isUpdating == old(isUpdating)
    {
      isEditing := true;
    }

    /** Typing in the title field. */
    method SetEditTitle(text: string)
      modifies this
      ensures todo == old(todo)
      ensures editTitle == text
      ensures isEditing == old(isEditing) && editDescription == old(editDescription) && isUpdating == old(isUpdating)
    {
      editTitle := text;
    }

    /** Typing in the description field. */
    method SetEditDescription(text: string)
      modifies this
      ensures todo == old(todo)
      ensures editDescription == text
      ensures isEditing == old(isEditing) && editTitle == old(editTitle) && isUpdating == old(isUpdating)
    {
      editDescription := text;
    }

    /** The cancel button: leave edit mode and put the todo's own title and
        description back in the buffers. */
    method Cancel()
      modifies this
      ensures todo == old(todo)
      ensures !isEditing
      ensures editTitle == todo.title && editDescription == DescriptionText(todo)
      ensures isUpdating == old(isUpdating)
    {
      isEditing := false;
      editTitle := todo.title;
      editDescription := DescriptionText(todo);
    }

    /** The list re-rendering this row with a reloaded todo. Rows are keyed
        by `$id`, so the same component receives a todo with the same id; the
        prop changes while the `useState` flags and buffers keep their values. */
    method ReceiveProp(t: Todo)
      requires t.id == todo.id
      modifies this
      ensures todo == t
      ensures isEditing == old(isEditing) && editTitle == old(editTitle) && editDescription == old(editDescription)
      ensures isUpdating == old(isUpdating)
    {
      todo := t;
    }

    /** `handleToggleComplete` up to its `await`: `isUpdating` goes on and
        the negated completion flag is sent. */
    method StartToggleComplete(now: int) returns (call: UpdateCall)
      modifies this
      ensures todo == old(todo)
      ensures call == UpdateCall(todo.id, CompletionUpdate(!todo.completed, now))
      ensures isUpdating
      ensures isEditing == old(isEditing) && editTitle == old(editTitle) && editDescription == old(editDescription)
    {
      isUpdating := true;
      call := UpdateCall(todo.id, CompletionUpdate(!todo.completed, now));
    }

    /** `handleToggleComplete` after its `await`: the list reloads on
        success, an alert is raised on failure; `isUpdating` goes off. */
    method FinishToggleComplete(ok: bool) returns (refreshed: bool, alert: Option<string>)
      modifies this
      ensures todo == old(todo)
      ensures refreshed <==> ok
      ensures alert == if ok then None else Some(UpdateFailedAlert)
      ensures !isUpdating
      ensures isEditing == old(isEditing) && editTitle == old(editTitle) && editDescription == old(editDescription)
    {
      if ok {
        refreshed, alert := true, None;
      } else {
        refreshed, alert := false, Some(UpdateFailedAlert);
      }
      isUpdating := false;
    }

    /** A press on the checkbox, which is shown outside edit mode only and is
        disabled while an update is in flight. */
    method PressToggle(now: int) returns (call: Option<UpdateCall>)
      requires !isEditing
      modifies this
      ensures todo == old(todo)
      ensures old(isUpdating) ==> call == None
      ensures !old(isUpdating) ==> call == Some(UpdateCall(todo.id, CompletionUpdate(!todo.completed, now)))
      ensures isUpdating
      ensures isEditing == old(isEditing) && editTitle == old(editTitle) && editDescription == old(editDescription)
    {
      if isUpdating {
        return None;
      }
      var c := StartToggleComplete(now);
      call := Some(c);
    }

    /** `handleSaveEdit` up to its `await`. A blank title alerts, sends
        nothing and changes nothing (still editing). Otherwise `isUpdating`
        goes on and the trimmed buffers are sent. */
    method StartSaveEdit(now: int) returns (call: Option<UpdateCall>, alert: Option<string>)
      modifies this
      ensures todo == old(todo)
      ensures IsBlank(editTitle) ==> call == None && alert == Some(EmptyTitleAlert) && isUpdating == old(isUpdating)
      ensures !IsBlank(editTitle) ==>
                call == Some(UpdateCall(todo.id, ContentUpdate(Trim(editTitle), Trim(editDescription), now))) &&
                alert == None && isUpdating
      ensures isEditing == old(isEditing) && editTitle == old(editTitle) && editDescription == old(editDescription)
    {
      if IsBlank(editTitle) {
        return None, Some(EmptyTitleAlert);
      }
      isUpdating := true;
      call := Some(UpdateCall(todo.id, ContentUpdate(Trim(editTitle), Trim(editDescription), now)));
      alert := None;
    }

    /** `handleSaveEdit` after its `await`: on success edit mode ends and the
        list reloads, on failure an alert is raised and edit mode stays;
        `isUpdating` goes off either way. */
    method FinishSaveEdit(ok: bool) returns (refreshed: bool, alert: Option<string>)
      modifies this
      ensures todo == old(todo)
      ensures refreshed <==> ok
      ensures alert == if ok then None else Some(UpdateFailedAlert)
      ensures isEditing == (if ok then false else old(isEditing))
      ensures !isUpdating
      ensures editTitle == old(editTitle) && editDescription == old(editDescription)
    {
      if ok {
        isEditing := false;
        refreshed, alert := true, None;
      } else {
        refreshed, alert := false, Some(UpdateFailedAlert);
      }
      isUpdating := false;
    }

    /** A press on the save button, which is shown in edit mode only and is
        disabled while an update is in flight. */
    method PressSave(now: int) returns (call: Option<UpdateCall>, alert: Option<string>)
      requires isEditing
      modifies this
      ensures todo == old(todo)
      ensures old(isUpdating) ==> call == None && alert == None && isUpdating
      ensures !old(isUpdating) && IsBlank(editTitle) ==> call == None && alert == Some(EmptyTitleAlert) && !isUpdating
      ensures !old(isUpdating) && !IsBlank(editTitle) ==>
                call == Some(UpdateCall(todo.id, ContentUpdate(Trim(editTitle), Trim(editDescription), now))) &&
                alert == None && isUpdating
      ensures isEditing == old(isEditing) && editTitle == old(editTitle) && editDescription == old(editDescription)
    {
      if isUpdating {
        return None, None;
      }
      call, alert := StartSaveEdit(now);
    }

    /** A press on the cancel button, which is shown in edit mode only and is
        disabled while an update is in flight. */
    method PressCancel()
      requires isEditing
      modifies this
      ensures todo == old(todo)
      ensures old(isUpdating) ==>
                isEditing == old(isEditing) && editTitle == old(editTitle) && editDescription == old(editDescription)
      ensures !old(isUpdating) ==>
                !isEditing && editTitle == todo.title && editDescription == DescriptionText(todo)
      ensures isUpdating == old(isUpdating)
    {
      if !isUpdating {
        Cancel();
      }
    }

    /** `handleDelete` after its confirmation dialog. Cancelling does
        nothing. Confirming deletes the attachments in order, then the todo;
        the first failure stops the sequence and raises an alert, and only a
        complete run reloads the list. No state of the row changes. */
    method Delete(confirmed: bool, fileOk: nat -> bool, todoOk: bool)
      returns (calls: seq<DeleteCall>, refreshed: bool, alert: Option<string>)
      ensures !confirmed ==> calls == [] && !refreshed && alert == None
      ensures confirmed ==> calls == DeleteCalls(Attachments(todo), todo.id, fileOk, 0)
      ensures confirmed ==>
                (refreshed <==> todoOk && forall k :: 0 <= k < |Attachments(todo)| ==> fileOk(k))
      ensures alert == if confirmed && !refreshed then Some(DeleteFailedAlert) else None
    {
      if !confirmed {
        return [], false, None;
      }
      var files := Attachments(todo);
      ghost var plan := DeleteCalls(files, todo.id, fileOk, 0);
      calls := [];
      var i := 0;
      while i < |files|
        invariant 0 <= i <= |files|
        invariant calls + DeleteCalls(files, todo.id, fileOk, i) == plan
        invariant forall k :: 0 <= k < i ==> fileOk(k)
      {
        ghost var rest := DeleteCalls(files, todo.id, fileOk, i);
        if !fileOk(i) {
          assert rest == [DeleteFileCall(files[i])];
          calls := calls + [DeleteFileCall(files[i])];
          return calls, false, Some(DeleteFailedAlert);
        }
        assert rest == [DeleteFileCall(files[i])] + DeleteCalls(files, todo.id, fileOk, i + 1);
        assert calls + rest == (calls + [DeleteFileCall(files[i])]) + DeleteCalls(files, todo.id, fileOk, i + 1);
        calls := calls + [DeleteFileCall(files[i])];
        i := i + 1;
      }
      assert DeleteCalls(files, todo.id, fileOk, i) == [DeleteTodoCall(todo.id)];
      calls := calls + [DeleteTodoCall(todo.id)];
      if todoOk {
        refreshed, alert := true, None;
      } else {
        refreshed, alert := false, Some(DeleteFailedAlert);
      }
    }
  }

  /** Editing both buffers and cancelling leaves the row as it started. */
  method EditThenCancel(t: Todo, title: string, description: string)
    returns (editing: bool, shownTitle: string, shownDescription: string)
    ensures !editing && shownTitle == t.title && shownDescription == DescriptionText(t)
  {
    var row := new TodoItemView(t);
    row.StartEdit();
    row.SetEditTitle(title);
    row.SetEditDescription(description);
    row.Cancel();
    editing, shownTitle, shownDescription := row.isEditing, row.editTitle, row.editDescription;
  }

  /** A failed save keeps the editor open with what was typed, so the user
      can retry. */
  method FailedSaveKeepsEditor(t: Todo, title: string, now: int)
    returns (editing: bool, kept: string, sent: bool, updating: bool)
    requires !IsBlank(title)
    ensures editing && kept == title && sent && !updating
  {
    var row := new TodoItemView(t);
    row.StartEdit();
    row.SetEditTitle(title);
    var call, alert := row.PressSave(now);
    var refreshed, failure := row.FinishSaveEdit(false);
    editing, kept, sent, updating := row.isEditing, row.editTitle, call.Some?, row.isUpdating;
  }

  /** Cancel does nothing while a save is in flight: the typed title stays
      in the editor. */
  method CancelBlockedWhileSaving(t: Todo, title: string, now: int)
    returns (editing: bool, kept: string)
    requires !IsBlank(title)
    ensures editing && kept == title
  {
    var row := new TodoItemView(t);
    row.StartEdit();
    row.SetEditTitle(title);
    var call, alert := row.PressSave(now);
    row.PressCancel();
    editing, kept := row.isEditing, row.editTitle;
  }

  /** Two quick taps on the checkbox send one update: the first disables it
      until the call returns. */
  method DoubleTapTogglesOnce(t: Todo, now: int)
    returns (first: Option<UpdateCall>, second: Option<UpdateCall>, refreshed: bool, updating: bool)
    ensures first == Some(UpdateCall(t.id, CompletionUpdate(!t.completed, now))) && second == None
    ensures refreshed && !updating
  {
    var row := new TodoItemView(t);
    first := row.PressToggle(now);
    second := row.PressToggle(now);
    var alert;
    refreshed, alert := row.FinishToggleComplete(true);
    updating := row.isUpdating;
  }

  /** A toggle reads the current prop: once the reloaded todo arrives, the
      next tap sends the flag back. */
  method ToggleAfterReloadFlipsBack(t: Todo, now1: int, now2: int)
    returns (first: Option<UpdateCall>, second: Option<UpdateCall>)
    ensures first == Some(UpdateCall(t.id, CompletionUpdate(!t.completed, now1)))
    ensures second == Some(UpdateCall(t.id, CompletionUpdate(t.completed, now2)))
  {
    var row := new TodoItemView(t);
    first := row.PressToggle(now1);
    var refreshed, alert := row.FinishToggleComplete(true);
    row.ReceiveProp(t.(completed := !t.completed));
    second := row.PressToggle(now2);
  }

  /** After a successful save and the reload, cancelling a new edit restores
      the saved (trimmed) title rather than the one the row started with. */
  method CancelAfterReloadRestoresSavedTitle(t: Todo, title: string, now: int)
    returns (editing: bool, shownTitle: string)
    requires !IsBlank(title)
    ensures !editing && shownTitle == Trim(title)
  {
    var row := new TodoItemView(t);
    row.StartEdit();
    row.SetEditTitle(title);
    var call, alert := row.PressSave(now);
    var refreshed, failure := row.FinishSaveEdit(true);
    row.ReceiveProp(t.(title := Trim(title)));
    row.StartEdit();
    row.SetEditTitle(title + " draft");
    row.PressCancel();
    editing, shownTitle := row.isEditing, row.editTitle;
  }
}
