/** The todo screen of components/TodoList.tsx: the list kept current by
    realtime events, its display order, the pending/completed counts, the
    create form, and the realtime connection status. */
module TodoList {
  import opened Common
  import opened TodoData

  const CreateEvent := "databases.*.collections.*.documents.*.create"
  const UpdateEvent := "databases.*.collections.*.documents.*.update"
  const DeleteEvent := "databases.*.collections.*.documents.*.delete"

  // ---------------------------------------------------------------------
  // Realtime reducer

  /** The property of `{ ...todo, ...data }` that comes from `data`: its own
      value unless `data` lacks the property. */
  function Spread<T>(base: Field<T>, over: Field<T>): (r: Field<T>)
    ensures over.Absent? ==> r == base
    ensures !over.Absent? ==> r == over
  {
    if over.Absent? then base else over
  }

  /** `{ ...todo, ...data }`: every property of `data` wins; the optional
      properties `data` lacks are kept from `todo`. */
  function Merge(todo: Todo, data: Todo): (r: Todo)
    ensures r.id == data.id && r.title == data.title && r.completed == data.completed
    ensures r.priority == data.priority && r.createdAt == data.createdAt
    ensures r.updatedAt == data.updatedAt && r.userId == data.userId
    ensures r.description == Spread(todo.description, data.description)
    ensures r.dueDate == Spread(todo.dueDate, data.dueDate)
    ensures r.attachments == Spread(todo.attachments, data.attachments)
  {
    data.(description := Spread(todo.description, data.description),
          dueDate := Spread(todo.dueDate, data.dueDate),
          attachments := Spread(todo.attachments, data.attachments))
  }

  /** Merging the same payload again changes nothing. */
  lemma MergeIdempotent(todo: Todo, data: Todo)
    ensures Merge(Merge(todo, data), data) == Merge(todo, data)
  {
  }

  /** `prev.map(todo => todo.$id === data.$id ? { ...todo, ...data } : todo)` */
  function MergeMatching(todos: seq<Todo>, data: Todo): (r: seq<Todo>)
    ensures |r| == |todos|
    ensures forall i :: 0 <= i < |r| ==> r[i] == if todos[i].id == data.id then Merge(todos[i], data) else todos[i]
  {
    seq(|todos|, i requires 0 <= i < |todos| => if todos[i].id == data.id then Merge(todos[i], data) else todos[i])
  }

  /** `prev.filter(todo => todo.$id !== data.$id)`: every todo with the id
      goes, every other stays, in order. */
  function RemoveId(todos: seq<Todo>, id: string): (r: seq<Todo>)
    ensures SubsequenceOf(r, todos)
    ensures forall t :: multiset(r)[t] == if t.id == id then 0 else multiset(todos)[t]
    decreases |todos|
  {
    if todos == [] then []
    else
      var rest := RemoveId(todos[1..], id);
      assert todos == [todos[0]] + todos[1..];
      if todos[0].id != id then
        assert ([todos[0]] + rest)[1..] == rest;
        [todos[0]] + rest
      else rest
  }

  /** The realtime callback's effect on the list. The first of create,
      update, delete found among the events decides; create and update apply
      only to the current user's documents, delete to any. */
  function OnRealtimePayload(todos: seq<Todo>, events: seq<string>, data: Todo, currentUserId: string)
    : (r: seq<Todo>)
    ensures CreateEvent in events ==> r == if data.userId == currentUserId then [data] + todos else todos
    ensures CreateEvent !in events && UpdateEvent in events ==>
              |r| == |todos| &&
              forall i :: 0 <= i < |r| ==>
                r[i] == if todos[i].id == data.id && data.userId == currentUserId then Merge(todos[i], data) else todos[i]
    ensures CreateEvent !in events && UpdateEvent !in events && DeleteEvent in events ==>
              SubsequenceOf(r, todos) &&
              forall t :: multiset(r)[t] == if t.id == data.id then 0 else multiset(todos)[t]
    ensures CreateEvent !in events && UpdateEvent !in events && DeleteEvent !in events ==> r == todos
  {
    if CreateEvent in events then
      if data.userId == currentUserId then [data] + todos else todos
    else if UpdateEvent in events then
      if data.userId == currentUserId then MergeMatching(todos, data) else todos
    else if DeleteEvent in events then
      RemoveId(todos, data.id)
    else todos
  }

  /** The three event names differ (in the character after "documents.*."). */
  lemma EventsDistinct()
    ensures CreateEvent != UpdateEvent && CreateEvent != DeleteEvent && UpdateEvent != DeleteEvent
  {
    assert CreateEvent[38] == 'c' && UpdateEvent[38] == 'u' && DeleteEvent[38] == 'd';
  }

  predicate HasId(todos: seq<Todo>, id: string) {
    exists i :: 0 <= i < |todos| && todos[i].id == id
  }

  lemma {:induction false} RemoveAbsentId(todos: seq<Todo>, id: string)
    requires !HasId(todos, id)
    ensures RemoveId(todos, id) == todos
    decreases |todos|
  {
    if todos != [] {
      assert !HasId(todos[1..], id) by {
        forall i | 0 <= i < |todos[1..]| ensures todos[1..][i].id != id {
          assert todos[1..][i] == todos[i + 1];
        }
      }
      RemoveAbsentId(todos[1..], id);
    }
  }

  /** A todo created by its owner and then deleted leaves the list as it was,
      provided its id was new. */
  lemma CreateThenDeleteRestores(todos: seq<Todo>, data: Todo, currentUserId: string)
    requires data.userId == currentUserId && !HasId(todos, data.id)
    ensures OnRealtimePayload(OnRealtimePayload(todos, [CreateEvent], data, currentUserId),
                              [DeleteEvent], data, currentUserId) == todos
  {
    var created := OnRealtimePayload(todos, [CreateEvent], data, currentUserId);
    assert created == [data] + todos;
    assert created[1..] == todos;
    RemoveAbsentId(todos, data.id);
    EventsDistinct();
    assert CreateEvent !in [DeleteEvent] && UpdateEvent !in [DeleteEvent];
  }

  /** Replaying an update payload gives the same list. */
  lemma UpdateIdempotent(todos: seq<Todo>, data: Todo)
    ensures MergeMatching(MergeMatching(todos, data), data) == MergeMatching(todos, data)
  {
    var once := MergeMatching(todos, data);
    forall i | 0 <= i < |todos| ensures MergeMatching(once, data)[i] == once[i] {
      if todos[i].id == data.id {
        MergeIdempotent(todos[i], data);
      }
    }
  }

  // ---------------------------------------------------------------------
  // Display order

  /** `priorityOrder` */
  function Rank(p: Priority): (r: int)
    ensures 1 <= r <= 3
    ensures r == 3 <==> p == High
    ensures r == 1 <==> p == Low
  {
    match p
    case High => 3
    case Medium => 2
    case Low => 1
  }

  /** The intended order, stated as a key comparison: open before done,
      then higher priority, then more recent creation. */
  predicate Before(a: Todo, b: Todo) {
    || (!a.completed && b.completed)
    || (a.completed == b.completed && Rank(a.priority) > Rank(b.priority))
    || (a.completed == b.completed && a.priority == b.priority && a.createdAt > b.createdAt)
  }

  predicate SameKey(a: Todo, b: Todo) {
    a.completed == b.completed && a.priority == b.priority && a.createdAt == b.createdAt
  }

  /** The comparator of `getFilteredTodos`: negative puts `a` first. */
  function Compare(a: Todo, b: Todo): (r: int)
    ensures r < 0 <==> Before(a, b)
    ensures r > 0 <==> Before(b, a)
    ensures r == 0 <==> SameKey(a, b)
  {
    if a.completed != b.completed then (if a.completed then 1 else -1)
    else if Rank(a.priority) != Rank(b.priority) then Rank(b.priority) - Rank(a.priority)
    else b.createdAt - a.createdAt
  }

  /** `a` may stand before `b` in a sorted list: `b` does not belong first. */
  predicate InOrder(a: Todo, b: Todo) {
    !Before(b, a)
  }

  /** `InOrder` is exactly what the comparator allows. */
  lemma InOrderIsComparator(a: Todo, b: Todo)
    ensures InOrder(a, b) <==> Compare(a, b) <= 0
  {
  }

  lemma InOrderTransitive(a: Todo, b: Todo, c: Todo)
    requires InOrder(a, b) && InOrder(b, c)
    ensures InOrder(a, c)
  {
  }

  predicate Sorted(s: seq<Todo>) {
    forall i, j :: 0 <= i < j < |s| ==> InOrder(s[i], s[j])
  }

  /** The first `n` elements of `a` are in order. */
  ghost predicate SortedPrefix(a: array<Todo>, n: int)
    reads a
  {
    forall p, q :: 0 <= p < q < n && q < a.Length ==> InOrder(a[p], a[q])
  }

  method Swap(a: array<Todo>, x: int, y: int)
    requires 0 <= x < a.Length && 0 <= y < a.Length
    modifies a
    ensures a[x] == old(a[y]) && a[y] == old(a[x])
    ensures forall k :: 0 <= k < a.Length && k != x && k != y ==> a[k] == old(a[k])
    ensures multiset(a[..]) == multiset(old(a[..]))
  {
    a[x], a[y] := a[y], a[x];
  }

  /** Moves `a[i]` left past every element that belongs after it. */
  method InsertAt(a: array<Todo>, i: int)
    requires 0 <= i < a.Length && SortedPrefix(a, i)
    modifies a
    ensures SortedPrefix(a, i + 1)
    ensures multiset(a[..]) == multiset(old(a[..]))
  {
    var j := i;
    while j > 0 && Compare(a[j - 1], a[j]) > 0
      invariant 0 <= j <= i
      invariant multiset(a[..]) == multiset(old(a[..]))
      invariant forall p, q :: 0 <= p < q <= i && p != j && q != j ==> InOrder(a[p], a[q])
      invariant forall q :: j < q <= i ==> InOrder(a[j], a[q])
    {
      Swap(a, j - 1, j);
      j := j - 1;
    }
    forall p | 0 <= p < j ensures InOrder(a[p], a[j]) {
      InOrderTransitive(a[p], a[j - 1], a[j]);
    }
  }

  /** `todos.sort(comparator)`, in place: the result is ordered by the
      comparator and holds the same todos. */
  method SortTodos(a: array<Todo>)
    modifies a
    ensures Sorted(a[..])
    ensures multiset(a[..]) == multiset(old(a[..]))
  {
    var i := 0;
    while i < a.Length
      invariant 0 <= i <= a.Length
      invariant SortedPrefix(a, i)
      invariant multiset(a[..]) == multiset(old(a[..]))
    {
      InsertAt(a, i);
      i := i + 1;
    }
  }

  // ---------------------------------------------------------------------
  // Counts

  function PendingCount(todos: seq<Todo>): nat
    decreases |todos|
  {
    if todos == [] then 0 else (if todos[0].completed then 0 else 1) + PendingCount(todos[1..])
  }

  function CompletedCount(todos: seq<Todo>): nat
    decreases |todos|
  {
    if todos == [] then 0 else (if todos[0].completed then 1 else 0) + CompletedCount(todos[1..])
  }

  /** Every todo is counted once, as pending or as completed. */
  lemma {:induction false} CountsPartition(todos: seq<Todo>)
    ensures PendingCount(todos) + CompletedCount(todos) == |todos|
    decreases |todos|
  {
    if todos != [] {
      CountsPartition(todos[1..]);
    }
  }

  // ---------------------------------------------------------------------
  // The screen

  datatype RealtimeStatus = Connecting | Connected | Disconnected

  /** The fields `handleCreateTodo` passes to `createTodo` (the context adds `userId`). */
  datatype NewTodo = NewTodo(title: string, description: Field<string>, completed: bool,
                             priority: Priority, createdAt: int, updatedAt: int)

  const EmptyTitleAlert := "Please enter a todo title"
  const CreateFailedAlert := "Failed to create todo"
  const LoadFailedAlert := "Failed to load todos"

  /** The request of a create: trimmed title, trimmed description or `null`
      when that is empty, not completed, the chosen priority, and the two
      clock readings taken for `createdAt` and `updatedAt`. */
  function NewTodoRequest(title: string, description: string, priority: Priority, createdAt: int, updatedAt: int)
    : (r: NewTodo)
    ensures r.title == Trim(title) && !r.completed && r.priority == priority
    ensures r.description == if Trim(description) == "" then Field.Null else Present(Trim(description))
    ensures r.createdAt == createdAt && r.updatedAt == updatedAt
  {
    NewTodo(Trim(title), if Trim(description) == "" then Field.Null else Present(Trim(description)),
            false, priority, createdAt, updatedAt)
  }

  /** All screen state at once, for stating what a method leaves unchanged. */
  datatype ScreenState = ScreenState(
    todos: seq<Todo>, loading: bool, showAddModal: bool,
    newTodoTitle: string, newTodoDescription: string, newTodoPriority: Priority,
    creating: bool, realtimeStatus: RealtimeStatus)

  class TodoListScreen {
    var todos: seq<Todo>
    var loading: bool
    var showAddModal: bool
    var newTodoTitle: string
    var newTodoDescription: string
    var newTodoPriority: Priority
    var creating: bool
    var realtimeStatus: RealtimeStatus

    ghost function State(): ScreenState
      reads this
    {
      ScreenState(todos, loading, showAddModal, newTodoTitle, newTodoDescription, newTodoPriority,
                  creating, realtimeStatus)
    }

    constructor ()
      ensures State() == ScreenState([], true, false, "", "", Medium, false, Connecting)
    {
      todos := [];
      loading := true;
      showAddModal := false;
      newTodoTitle := "";
      newTodoDescription := "";
      newTodoPriority := Medium;
      creating := false;
      realtimeStatus := Connecting;
    }

    /** The end of `loadTodos`: the documents replace the list, or an alert
        is raised and the list stays; loading ends either way. */
    method CompleteLoad(result: Outcome<seq<Todo>>) returns (alert: Option<string>)
      modifies this
      ensures result.Succeeded? ==> alert == None && State() == old(State()).(todos := result.value, loading := false)
      ensures result.Failed? ==> alert == Some(LoadFailedAlert) && State() == old(State()).(loading := false)
    {
      if result.Succeeded? {
        todos := result.value;
        alert := None;
      } else {
        alert := Some(LoadFailedAlert);
      }
      loading := false;
    }

    /** `setupRealtime`: 'connecting', then 'disconnected' if subscribing throws. */
    method SetupRealtime(subscribeOk: bool)
      modifies this
      ensures State() == old(State()).(realtimeStatus := if subscribeOk then Connecting else Disconnected)
    {
      realtimeStatus := Connecting;
      if !subscribeOk {
        realtimeStatus := Disconnected;
      }
    }

    /** The subscription callback: any payload marks the feed live, then the
        list is updated as `OnRealtimePayload` says. */
    method ReceivePayload(events: seq<string>, data: Todo, currentUserId: string)
      modifies this
      ensures State() == old(State()).(realtimeStatus := Connected,
                                       todos := OnRealtimePayload(old(todos), events, data, currentUserId))
    {
      realtimeStatus := Connected;
      todos := OnRealtimePayload(todos, events, data, currentUserId);
    }

    /** The "Add Todo" button. */
    method OpenAddModal()
      modifies this
      ensures State() == old(State()).(showAddModal := true)
    {
      showAddModal := true;
    }

    /** The close button of the modal; the form keeps what was typed. */
    method CloseAddModal()
      modifies this
      ensures State() == old(State()).(showAddModal := false)
    {
      showAddModal := false;
    }

    /** Typing in the title field. */
    method SetNewTodoTitle(text: string)
      modifies this
      ensures State() == old(State()).(newTodoTitle := text)
    {
      newTodoTitle := text;
    }

    /** Typing in the description field. */
    method SetNewTodoDescription(text: string)
      modifies this
      ensures State() == old(State()).(newTodoDescription := text)
    {
      newTodoDescription := text;
    }

    /** Choosing a priority. */
    method SetNewTodoPriority(p: Priority)
      modifies this
      ensures State() == old(State()).(newTodoPriority := p)
    {
      newTodoPriority := p;
    }

    /** The `disabled` prop of the save button. */
    predicate CreateDisabled()
      reads this
    {
      creating || IsBlank(newTodoTitle)
    }

    /** `handleCreateTodo` up to its `await`. A blank title only raises an
        alert and changes nothing. Otherwise `creating` goes on and the
        request is sent; the form is left as it is until the call returns. */
    method StartCreateTodo(createdAt: int, updatedAt: int) returns (request: Option<NewTodo>, alert: Option<string>)
      modifies this
      ensures IsBlank(old(newTodoTitle)) ==>
                request == None && alert == Some(EmptyTitleAlert) && State() == old(State())
      ensures !IsBlank(old(newTodoTitle)) ==>
                request == Some(NewTodoRequest(newTodoTitle, newTodoDescription, newTodoPriority, createdAt, updatedAt)) &&
                alert == None && State() == old(State()).(creating := true)
    {
      if IsBlank(newTodoTitle) {
        request, alert := None, Some(EmptyTitleAlert);
      } else {
        creating := true;
        request := Some(NewTodoRequest(newTodoTitle, newTodoDescription, newTodoPriority, createdAt, updatedAt));
        alert := None;
      }
    }

    /** `handleCreateTodo` after its `await`: a success resets the form and
        closes the modal, a failure raises an alert and keeps the form;
        `creating` goes off either way. The list is left to the realtime feed. */
    method FinishCreateTodo(createOk: bool) returns (alert: Option<string>)
      modifies this
      ensures createOk ==>
                alert == None &&
                State() == old(State()).(newTodoTitle := "", newTodoDescription := "", newTodoPriority := Medium,
                                         showAddModal := false, creating := false)
      ensures !createOk ==> alert == Some(CreateFailedAlert) && State() == old(State()).(creating := false)
    {
      if createOk {
        newTodoTitle, newTodoDescription, newTodoPriority, showAddModal := "", "", Medium, false;
        alert := None;
      } else {
        alert := Some(CreateFailedAlert);
      }
      creating := false;
    }

    /** A press on the save button: ignored while it is disabled (a create in
        flight, or a blank title), otherwise `handleCreateTodo` starts. */
    method PressCreate(createdAt: int, updatedAt: int) returns (request: Option<NewTodo>)
      modifies this
      ensures old(CreateDisabled()) ==> request == None && State() == old(State())
      ensures !old(CreateDisabled()) ==>
                request == Some(NewTodoRequest(newTodoTitle, newTodoDescription, newTodoPriority, createdAt, updatedAt)) &&
                State() == old(State()).(creating := true)
    {
      if CreateDisabled() {
        return None;
      }
      var alert;
      request, alert := StartCreateTodo(createdAt, updatedAt);
    }

    /** `getFilteredTodos`, called while rendering: it sorts the state's own
        list in place and returns it, so the stored order changes too. */
    method GetFilteredTodos() returns (shown: seq<Todo>)
      modifies this
      ensures shown == todos
      ensures Sorted(todos) && multiset(todos) == multiset(old(todos))
      ensures State() == old(State()).(todos := todos)
    {
      var a := new Todo[|todos|](i requires 0 <= i < |todos| reads this => todos[i]);
      assert a[..] == todos;
      SortTodos(a);
      todos := a[..];
      shown := todos;
    }
  }

  /** Two quick taps on save send one request: the first turns `creating`
      on, which disables the button until the call returns. A successful
      return then empties the form and closes the modal. */
  method DoubleTapCreatesOnce(title: string, createdAt: int, updatedAt: int)
    returns (first: Option<NewTodo>, second: Option<NewTodo>, open: bool, titleAfter: string, creating: bool)
    requires !IsBlank(title)
    ensures first == Some(NewTodoRequest(title, "", Medium, createdAt, updatedAt)) && second == None
    ensures !open && titleAfter == "" && !creating
  {
    var screen := new TodoListScreen();
    screen.OpenAddModal();
    screen.SetNewTodoTitle(title);
    first := screen.PressCreate(createdAt, updatedAt);
    second := screen.PressCreate(createdAt, updatedAt);
    var alert := screen.FinishCreateTodo(true);
    open, titleAfter, creating := screen.showAddModal, screen.newTodoTitle, screen.creating;
  }
}
