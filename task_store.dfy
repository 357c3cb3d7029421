/** The client-side task store (src/store/useTaskStore.ts): the user's tasks
    and subject categories, a loading flag and an error message. Every
    mutator replaces a field with a new array built by `map` or `filter`;
    the queries are filters over the current tasks. The random identifier
    generator and the clock are parameters. */
module TaskStore {
  import opened Common
  import opened Model

  /** What a caller hands to `addTask`. The type omits `id`, but the form
      passes the server's id through a cast; since the argument is spread
      after the generated id, a present `id` wins. */
  datatype NewTask = NewTask(
    id: Option<string>,
    userId: string,
    title: string,
    description: string,
    priority: Priority,
    deadline: int,
    subject: string,
    completed: bool)

  /** `Partial<Task>`: the fields `updateTask` copies over (`updatedAt` is
      always overwritten with the clock, so it is not part of the patch). */
  datatype TaskPatch = TaskPatch(
    id: Option<string>,
    userId: Option<string>,
    title: Option<string>,
    description: Option<string>,
    priority: Option<Priority>,
    deadline: Option<int>,
    subject: Option<string>,
    completed: Option<bool>,
    createdAt: Option<int>)

  datatype NewCategory = NewCategory(userId: string, name: string, color: string)

  datatype CategoryPatch = CategoryPatch(id: Option<string>, userId: Option<string>, name: Option<string>, color: Option<string>)

  const FetchError: string := "Failed to fetch tasks"

  /** The record `addTask` appends. */
  function MakeTask(data: NewTask, generatedId: string, now: int): Task {
    Task(data.id.GetOr(generatedId), data.userId, data.title, data.description, data.priority,
         data.deadline, data.subject, data.completed, now, now)
  }

  /** `{ ...task, ...patch, updatedAt: now }` */
  function MergeTask(t: Task, patch: TaskPatch, now: int): Task {
    Task(patch.id.GetOr(t.id), patch.userId.GetOr(t.userId), patch.title.GetOr(t.title),
         patch.description.GetOr(t.description), patch.priority.GetOr(t.priority),
         patch.deadline.GetOr(t.deadline), patch.subject.GetOr(t.subject),
         patch.completed.GetOr(t.completed), patch.createdAt.GetOr(t.createdAt), now)
  }

  /** `{ ...category, ...patch }` */
  function MergeCategory(c: Category, patch: CategoryPatch): Category {
    Category(patch.id.GetOr(c.id), patch.userId.GetOr(c.userId), patch.name.GetOr(c.name), patch.color.GetOr(c.color))
  }

  /** The `tasks.map` of `updateTask`. */
  function UpdateById(tasks: seq<Task>, id: string, patch: TaskPatch, now: int): (r: seq<Task>)
    ensures |r| == |tasks|
    ensures forall i :: 0 <= i < |tasks| && tasks[i].id != id ==> r[i] == tasks[i]
    ensures forall i :: 0 <= i < |tasks| && tasks[i].id == id ==> r[i] == MergeTask(tasks[i], patch, now) && r[i].updatedAt == now
    ensures (forall t :: t in tasks ==> t.id != id) ==> r == tasks
  {
    MapSeq(tasks, (t: Task) => if t.id == id then MergeTask(t, patch, now) else t)
  }

  /** The `tasks.filter` of `deleteTask`. */
  function RemoveById(tasks: seq<Task>, id: string): (r: seq<Task>)
    ensures forall t :: t in r <==> t in tasks && t.id != id
  {
    Filter(tasks, (t: Task) => t.id != id)
  }

  /** Deleting keeps the surviving tasks in their order, each as often as it
      was there: the result over a concatenation is the results over the
      parts, and one task survives exactly when its id differs. */
  lemma RemoveByIdKeepsOrder(a: seq<Task>, b: seq<Task>, t: Task, id: string)
    ensures RemoveById(a + b, id) == RemoveById(a, id) + RemoveById(b, id)
    ensures RemoveById([t], id) == if t.id != id then [t] else []
  {
    FilterConcat(a, b, (t: Task) => t.id != id);
    assert [t][1..] == [];
  }

  /** A task with `completed` flipped and `updatedAt` set to now. */
  function Flip(t: Task, now: int): (r: Task)
    ensures r.completed == !t.completed && r.updatedAt == now
    ensures r.(completed := t.completed, updatedAt := t.updatedAt) == t
  {
    t.(completed := !t.completed, updatedAt := now)
  }

  /** The `tasks.map` of `toggleTaskCompletion`. */
  function ToggleById(tasks: seq<Task>, id: string, now: int): (r: seq<Task>)
    ensures |r| == |tasks|
    ensures forall i :: 0 <= i < |tasks| && tasks[i].id != id ==> r[i] == tasks[i]
    ensures forall i :: 0 <= i < |tasks| && tasks[i].id == id ==> r[i] == Flip(tasks[i], now)
  {
    MapSeq(tasks, (t: Task) => if t.id == id then Flip(t, now) else t)
  }

  function UpdateCategoryById(categories: seq<Category>, id: string, patch: CategoryPatch): (r: seq<Category>)
    ensures |r| == |categories|
    ensures forall i :: 0 <= i < |categories| ==>
      r[i] == if categories[i].id == id then MergeCategory(categories[i], patch) else categories[i]
  {
    MapSeq(categories, (c: Category) => if c.id == id then MergeCategory(c, patch) else c)
  }

  function RemoveCategoryById(categories: seq<Category>, id: string): (r: seq<Category>)
    ensures forall c :: c in r <==> c in categories && c.id != id
  {
    Filter(categories, (c: Category) => c.id != id)
  }

  /** Deleting a category keeps the others in their order. */
  lemma RemoveCategoryByIdKeepsOrder(a: seq<Category>, b: seq<Category>, c: Category, id: string)
    ensures RemoveCategoryById(a + b, id) == RemoveCategoryById(a, id) + RemoveCategoryById(b, id)
    ensures RemoveCategoryById([c], id) == if c.id != id then [c] else []
  {
    FilterConcat(a, b, (c: Category) => c.id != id);
    assert [c][1..] == [];
  }

  /** The `tasks.filter` of `getTasksByCategory`. */
  function TasksOfSubject(tasks: seq<Task>, categoryId: string): (r: seq<Task>)
    ensures forall t :: t in r <==> t in tasks && t.subject == categoryId
  {
    Filter(tasks, (t: Task) => t.subject == categoryId)
  }

  /** The tasks of one subject come out in store order, each as often as it
      is stored. */
  lemma TasksOfSubjectKeepsOrder(a: seq<Task>, b: seq<Task>, t: Task, categoryId: string)
    ensures TasksOfSubject(a + b, categoryId) == TasksOfSubject(a, categoryId) + TasksOfSubject(b, categoryId)
    ensures TasksOfSubject([t], categoryId) == if t.subject == categoryId then [t] else []
  {
    FilterConcat(a, b, (t: Task) => t.subject == categoryId);
    assert [t][1..] == [];
  }

  /** The `tasks.filter` of `getTasksByPriority`. */
  function TasksOfPriority(tasks: seq<Task>, priority: Priority): (r: seq<Task>)
    ensures forall t :: t in r <==> t in tasks && t.priority == priority
  {
    Filter(tasks, (t: Task) => t.priority == priority)
  }

  /** The tasks of one priority come out in store order, each as often as it
      is stored. */
  lemma TasksOfPriorityKeepsOrder(a: seq<Task>, b: seq<Task>, t: Task, priority: Priority)
    ensures TasksOfPriority(a + b, priority) == TasksOfPriority(a, priority) + TasksOfPriority(b, priority)
    ensures TasksOfPriority([t], priority) == if t.priority == priority then [t] else []
  {
    FilterConcat(a, b, (t: Task) => t.priority == priority);
    assert [t][1..] == [];
  }

  /** Open and due no later than `limit`. */
  function OpenAndDueBy(limit: int): Task -> bool {
    (t: Task) => !t.completed && t.deadline <= limit
  }

  /** `getUpcomingTasks(days)`: open tasks due no later than `days` days from
      now. Nothing bounds the deadline from below, so past-due tasks are in. */
  function UpcomingTasks(tasks: seq<Task>, days: int, now: int): (r: seq<Task>)
    ensures forall t :: t in r <==> t in tasks && !t.completed && t.deadline <= now + days * DAY
    ensures forall t :: t in tasks && IsOverdue(t, now) && days >= 0 ==> t in r
  {
    Filter(tasks, OpenAndDueBy(now + days * DAY))
  }

  // ---------------------------------------------------------------------
  // Properties relating several operations
  // ---------------------------------------------------------------------

  /** Deleting is idempotent. */
  lemma {:induction false} RemoveByIdIdempotent(tasks: seq<Task>, id: string)
    ensures RemoveById(RemoveById(tasks, id), id) == RemoveById(tasks, id)
  {
    var r := RemoveById(tasks, id);
    FilterKeepsAll(r, (t: Task) => t.id != id);
  }

  /** Adding a task and then deleting its id restores the collection, provided
      no earlier task carried that id. */
  lemma {:induction false} AddThenDeleteRestores(tasks: seq<Task>, data: NewTask, generatedId: string, now: int)
    requires forall t :: t in tasks ==> t.id != MakeTask(data, generatedId, now).id
    ensures RemoveById(tasks + [MakeTask(data, generatedId, now)], MakeTask(data, generatedId, now).id) == tasks
  {
    var nt := MakeTask(data, generatedId, now);
    var p := (t: Task) => t.id != nt.id;
    FilterConcat(tasks, [nt], p);
    FilterKeepsAll(tasks, p);
    assert Filter([nt], p) == [];
  }

  /** Toggling the same id twice restores every `completed` flag and leaves
      only the two clock values in `updatedAt`. */
  lemma ToggleTwiceRestoresCompleted(tasks: seq<Task>, id: string, now1: int, now2: int)
    ensures |ToggleById(ToggleById(tasks, id, now1), id, now2)| == |tasks|
    ensures forall i :: 0 <= i < |tasks| ==>
      ToggleById(ToggleById(tasks, id, now1), id, now2)[i]
        == if tasks[i].id == id then tasks[i].(updatedAt := now2) else tasks[i]
  {
  }

  /** Updating keeps every task's position: ids other than the target and the
      order of the collection are untouched. */
  lemma UpdateKeepsOtherIds(tasks: seq<Task>, id: string, patch: TaskPatch, now: int)
    requires patch.id.None?
    ensures MapSeq(UpdateById(tasks, id, patch, now), (t: Task) => t.id) == MapSeq(tasks, (t: Task) => t.id)
  {
  }

  // ---------------------------------------------------------------------
  // The store
  // ---------------------------------------------------------------------

  class TaskStore {
    var tasks: seq<Task>
    var categories: seq<Category>
    var isLoading: bool
    var error: Option<string>

    constructor ()
      ensures tasks == [] && categories == [] && !isLoading && error == None
    {
      tasks, categories, isLoading, error := [], [], false, None;
    }

    /** `fetchTasks`: the reply of the list-by-user call is a parameter. A
        failure leaves the tasks alone and records the error. */
    method FetchTasks(reply: Remote<seq<Task>>)
      modifies this
      ensures reply.Ok? ==> tasks == reply.value && error == None
      ensures reply.Fail? ==> tasks == old(tasks) && error == Some(FetchError)
      ensures !isLoading && categories == old(categories)
    {
      isLoading, error := true, None;
      match reply
      case Ok(fetched) =>
        tasks, isLoading := fetched, false;
      case Fail =>
        error, isLoading := Some(FetchError), false;
    }

    method AddTask(data: NewTask, generatedId: string, now: int)
      modifies this`tasks
      ensures tasks == old(tasks) + [MakeTask(data, generatedId, now)]
      ensures |tasks| == |old(tasks)| + 1 && tasks[..|old(tasks)|] == old(tasks)
      ensures tasks[|tasks| - 1].createdAt == now && tasks[|tasks| - 1].updatedAt == now
      ensures tasks[|tasks| - 1].id == if data.id.Some? then data.id.value else generatedId
    {
      tasks := tasks + [MakeTask(data, generatedId, now)];
    }

    method UpdateTask(id: string, patch: TaskPatch, now: int)
      modifies this`tasks
      ensures tasks == UpdateById(old(tasks), id, patch, now)
    {
      tasks := UpdateById(tasks, id, patch, now);
    }

    method DeleteTask(id: string)
      modifies this`tasks
      ensures tasks == RemoveById(old(tasks), id)
    {
      tasks := RemoveById(tasks, id);
    }

    method ToggleTaskCompletion(id: string, now: int)
      modifies this`tasks
      ensures tasks == ToggleById(old(tasks), id, now)
    {
      tasks := ToggleById(tasks, id, now);
    }

    /** `addCategory`: appends and returns the very record it appended. */
    method AddCategory(data: NewCategory, generatedId: string) returns (c: Category)
      modifies this`categories
      ensures c == Category(generatedId, data.userId, data.name, data.color)
      ensures categories == old(categories) + [c]
    {
      c := Category(generatedId, data.userId, data.name, data.color);
      categories := categories + [c];
    }

    method UpdateCategory(id: string, patch: CategoryPatch)
      modifies this`categories
      ensures categories == UpdateCategoryById(old(categories), id, patch)
    {
      categories := UpdateCategoryById(categories, id, patch);
    }

    method DeleteCategory(id: string)
      modifies this`categories
      ensures categories == RemoveCategoryById(old(categories), id)
    {
      categories := RemoveCategoryById(categories, id);
    }

    /** `getTasksByCategory`: the tasks filed under one subject, in store order. */
    function GetTasksByCategory(categoryId: string): (r: seq<Task>)
      reads this
      ensures forall t :: t in r <==> t in tasks && t.subject == categoryId
    {
      TasksOfSubject(tasks, categoryId)
    }

    /** `getTasksByPriority`: the tasks of one priority, in store order. */
    function GetTasksByPriority(priority: Priority): (r: seq<Task>)
      reads this
      ensures forall t :: t in r <==> t in tasks && t.priority == priority
    {
      TasksOfPriority(tasks, priority)
    }

    function GetUpcomingTasks(days: int, now: int): (r: seq<Task>)
      reads this
      ensures forall t :: t in r <==> t in tasks && !t.completed && t.deadline <= now + days * DAY
    {
      UpcomingTasks(tasks, days, now)
    }
  }
}
