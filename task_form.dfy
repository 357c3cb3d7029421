/** The create/edit task form (src/components/tasks/TaskForm.tsx): its
    validation, the subject it files the task under (creating a category on
    the fly), and the submit policy, which changes the local store whether
    or not the server accepted the request. Parsing the date field, the
    random colour draw, the store's generated ids and the server's reply are
    parameters. */
module TaskForm {
  import opened Common
  import opened Model
  import opened TaskStore

  // ---------------------------------------------------------------------
  // The colour of a category created from the form
  // ---------------------------------------------------------------------

  const Palette: seq<string> := ["#4F46E5", "#0D9488", "#F59E0B", "#10B981", "#8B5CF6", "#EC4899", "#EF4444", "#3B82F6"]

  /** `getRandomColor`, with the draw of `Math.random()` as `u`. */
  function RandomColor(u: real): (r: string)
    requires 0.0 <= u < 1.0
    ensures r in Palette
  {
    var k := (u * 8.0).Floor;
    assert 0 <= k < 8;
    Palette[k]
  }

  /** Every colour of the palette can come out: a draw in the k-th eighth of
      [0, 1) picks the k-th entry. */
  lemma RandomColorCoversPalette(k: nat)
    requires k < |Palette|
    ensures RandomColor(k as real / 8.0) == Palette[k]
  {
    assert (k as real / 8.0) * 8.0 == k as real;
  }

  // ---------------------------------------------------------------------
  // Validation
  // ---------------------------------------------------------------------

  /** The keys of the error dictionary. */
  datatype Field = TitleField | DeadlineField | SubjectField

  const TitleRequired: string := "Title is required"
  const DeadlineRequired: string := "Deadline is required"
  const SubjectRequired: string := "Subject is required"

  /** The three rules together. */
  predicate TaskFormValid(title: string, deadline: string, subject: string, newSubject: string, showNewSubject: bool) {
    !IsBlank(title) && deadline != "" && (subject != "" || newSubject != "" || showNewSubject)
  }

  /** `validateForm`: builds the error dictionary one rule at a time. */
  method ValidateTaskForm(title: string, deadline: string, subject: string, newSubject: string, showNewSubject: bool)
    returns (errors: map<Field, string>, valid: bool)
    ensures TitleField in errors <==> IsBlank(title)
    ensures DeadlineField in errors <==> deadline == ""
    ensures SubjectField in errors <==> subject == "" && newSubject == "" && !showNewSubject
    ensures TitleField in errors ==> errors[TitleField] == TitleRequired
    ensures DeadlineField in errors ==> errors[DeadlineField] == DeadlineRequired
    ensures SubjectField in errors ==> errors[SubjectField] == SubjectRequired
    ensures valid <==> errors == map[]
    ensures valid <==> TaskFormValid(title, deadline, subject, newSubject, showNewSubject)
  {
    TrimEmptyIffBlank(title);
    errors := map[];
    if Trim(title) == "" {
      errors := errors[TitleField := TitleRequired];
    }
    if deadline == "" {
      errors := errors[DeadlineField := DeadlineRequired];
    }
    if subject == "" && newSubject == "" && !showNewSubject {
      errors := errors[SubjectField := SubjectRequired];
    }
    valid := |errors| == 0;
    if !valid {
      ghost var f :| f in errors;
    }
  }

  /** New-subject mode with nothing typed passes validation even with no
      subject selected: the task is then filed under the empty subject. */
  lemma EmptyNewSubjectPasses(title: string, deadline: string)
    requires !IsBlank(title) && deadline != ""
    ensures TaskFormValid(title, deadline, "", "", true)
    ensures ResolveSubject("", "", true, "any") == ""
  {
    TrimEmptyIffBlank(title);
  }

  // ---------------------------------------------------------------------
  // What gets submitted
  // ---------------------------------------------------------------------

  /** A category is created only in new-subject mode with a name typed. */
  predicate CreatesCategory(newSubject: string, showNewSubject: bool) {
    showNewSubject && newSubject != ""
  }

  /** The subject id the task is filed under. */
  function ResolveSubject(subject: string, newSubject: string, showNewSubject: bool, newCategoryId: string): (r: string)
    ensures CreatesCategory(newSubject, showNewSubject) ==> r == newCategoryId
    ensures !CreatesCategory(newSubject, showNewSubject) ==> r == subject
  {
    if showNewSubject && newSubject != "" then newCategoryId else subject
  }

  /** The body of the request, and of the local change. */
  datatype TaskData = TaskData(
    userId: string,
    title: string,
    description: string,
    priority: Priority,
    deadline: int,
    subject: string,
    completed: bool)

  /** `initialTask?.completed || false` */
  function CompletedFlag(initialTask: Option<Task>): (r: bool)
    ensures r <==> initialTask.Some? && initialTask.value.completed
  {
    match initialTask
    case Some(t) => t.completed
    case None => false
  }

  /** `{ ...taskData }` as a patch for `updateTask`. */
  function AsPatch(d: TaskData): TaskPatch {
    TaskPatch(None, Some(d.userId), Some(d.title), Some(d.description), Some(d.priority),
              Some(d.deadline), Some(d.subject), Some(d.completed), None)
  }

  /** `{ ...taskData, id }` for `addTask`; no id on the failure path. */
  function AsNewTask(d: TaskData, id: Option<string>): NewTask {
    NewTask(id, d.userId, d.title, d.description, d.priority, d.deadline, d.subject, d.completed)
  }

  /** Updating with the form's data writes every field of it and keeps the
      task's id and creation time. */
  lemma UpdateWritesFormData(t: Task, d: TaskData, now: int)
    ensures var u := MergeTask(t, AsPatch(d), now);
      && u.id == t.id && u.createdAt == t.createdAt && u.updatedAt == now
      && u.userId == d.userId && u.title == d.title && u.description == d.description
      && u.priority == d.priority && u.deadline == d.deadline && u.subject == d.subject
      && u.completed == d.completed
  {
  }

  /** A task created with the server's id carries that id; one created after
      a failure carries the store's generated id. */
  lemma CreatedTaskId(d: TaskData, serverId: string, localId: string, now: int)
    ensures MakeTask(AsNewTask(d, Some(serverId)), localId, now).id == serverId
    ensures MakeTask(AsNewTask(d, None), localId, now).id == localId
  {
  }

  /** The subject step of `handleSubmit`: in new-subject mode with a name
      typed, a category with a random colour is added to the store and the
      task goes under its id; otherwise under the selected subject. */
  method FileSubject(store: TaskStore, uid: string, subject: string, newSubject: string, showNewSubject: bool,
                     newCategoryId: string, colorDraw: real)
    returns (subjectId: string)
    requires 0.0 <= colorDraw < 1.0
    modifies store`categories
    ensures subjectId == ResolveSubject(subject, newSubject, showNewSubject, newCategoryId)
    ensures CreatesCategory(newSubject, showNewSubject) ==>
      store.categories == old(store.categories) + [Category(newCategoryId, uid, newSubject, RandomColor(colorDraw))]
    ensures !CreatesCategory(newSubject, showNewSubject) ==> store.categories == old(store.categories)
  {
    subjectId := subject;
    if showNewSubject && newSubject != "" {
      var created := store.AddCategory(NewCategory(uid, newSubject, RandomColor(colorDraw)), newCategoryId);
      subjectId := created.id;
    }
  }

  /** The request and its aftermath: on success the store is updated, or the
      task added under the server's id, and `onSubmit` runs once; on failure
      the store is changed all the same (a new task gets the store's own id)
      and `onSubmit` runs twice. Returns the number of `onSubmit` calls. */
  method ApplySubmit(store: TaskStore, initialTask: Option<Task>, data: TaskData, localId: string, now: int,
                     reply: Remote<string>)
    returns (submitted: nat)
    modifies store`tasks
    ensures initialTask.Some? ==> store.tasks == UpdateById(old(store.tasks), initialTask.value.id, AsPatch(data), now)
    ensures initialTask.None? && reply.Ok? ==>
      store.tasks == old(store.tasks) + [MakeTask(AsNewTask(data, Some(reply.value)), localId, now)]
    ensures initialTask.None? && reply.Fail? ==>
      store.tasks == old(store.tasks) + [MakeTask(AsNewTask(data, None), localId, now)]
    ensures submitted == if reply.Ok? then 1 else 2
  {
    if reply.Ok? {
      if initialTask.Some? {
        store.UpdateTask(initialTask.value.id, AsPatch(data), now);
      } else {
        store.AddTask(AsNewTask(data, Some(reply.value)), localId, now);
      }
      submitted := 1;
    } else {
      if initialTask.Some? {
        store.UpdateTask(initialTask.value.id, AsPatch(data), now);
      } else {
        store.AddTask(AsNewTask(data, None), localId, now);
      }
      submitted := 2;
    }
  }

  /** What a submitted form leaves behind, from the store's tasks and
      categories before and after: the new category when one was typed, the
      task updated or added (under the server's id, or the store's own after
      a failure), and one `onSubmit` call on success, two on failure. */
  predicate SubmitOutcome(tasks0: seq<Task>, categories0: seq<Category>, tasks: seq<Task>, categories: seq<Category>,
                          initialTask: Option<Task>, data: TaskData, newSubject: string, showNewSubject: bool,
                          newCategoryId: string, colorDraw: real, localId: string, now: int,
                          reply: Remote<string>, submitted: nat)
    requires 0.0 <= colorDraw < 1.0
  {
    && (CreatesCategory(newSubject, showNewSubject) ==>
          categories == categories0 + [Category(newCategoryId, data.userId, newSubject, RandomColor(colorDraw))])
    && (!CreatesCategory(newSubject, showNewSubject) ==> categories == categories0)
    && (initialTask.Some? ==> tasks == UpdateById(tasks0, initialTask.value.id, AsPatch(data), now))
    && (initialTask.None? && reply.Ok? ==> tasks == tasks0 + [MakeTask(AsNewTask(data, Some(reply.value)), localId, now)])
    && (initialTask.None? && reply.Fail? ==> tasks == tasks0 + [MakeTask(AsNewTask(data, None), localId, now)])
    && submitted == (if reply.Ok? then 1 else 2)
  }

  // ---------------------------------------------------------------------
  // The form
  // ---------------------------------------------------------------------

  class TaskForm {
    const initialTask: Option<Task>
    var title: string
    var description: string
    var priority: Priority
    var deadline: string      // the date field, "YYYY-MM-DD"
    var subject: string
    var newSubject: string
    var showNewSubject: bool
    var errors: map<Field, string>
    var isSubmitting: bool

    /** The fields start from the task being edited, or empty with medium
        priority; the date field's text is a parameter (it formats a date). */
    constructor (initial: Option<Task>, deadlineText: string)
      ensures initialTask == initial && deadline == deadlineText
      ensures initial.Some? ==>
        (title == initial.value.title && description == initial.value.description &&
         priority == initial.value.priority && subject == initial.value.subject)
      ensures initial.None? ==> title == "" && description == "" && priority == Medium && subject == ""
      ensures newSubject == "" && !showNewSubject && errors == map[] && !isSubmitting
    {
      initialTask := initial;
      if initial.Some? {
        var t := initial.value;
        title, description, priority, subject := t.title, t.description, t.priority, t.subject;
      } else {
        title, description, priority, subject := "", "", Medium, "";
      }
      deadline := deadlineText;
      newSubject, showNewSubject, errors, isSubmitting := "", false, map[], false;
    }

    /** The request body the form would send, given the resolved subject. */
    function Data(uid: string, parse: string -> int, subjectId: string): TaskData
      reads this`title, this`description, this`priority, this`deadline
    {
      TaskData(uid, title, description, priority, parse(deadline), subjectId, CompletedFlag(initialTask))
    }

    /** The half of `handleSubmit` after validation has passed for a
        signed-in user: file the subject, send, and apply the outcome. */
    method Proceed(uid: string, store: TaskStore, parse: string -> int, colorDraw: real,
                   newCategoryId: string, localId: string, now: int, reply: Remote<string>)
      returns (submitted: nat)
      requires 0.0 <= colorDraw < 1.0
      modifies this`isSubmitting, store`tasks, store`categories
      ensures SubmitOutcome(old(store.tasks), old(store.categories), store.tasks, store.categories,
        initialTask, Data(uid, parse, ResolveSubject(subject, newSubject, showNewSubject, newCategoryId)),
        newSubject, showNewSubject, newCategoryId, colorDraw, localId, now, reply, submitted)
      ensures !isSubmitting
    {
      isSubmitting := true;
      var subjectId := FileSubject(store, uid, subject, newSubject, showNewSubject, newCategoryId, colorDraw);
      var data := TaskData(uid, title, description, priority, parse(deadline), subjectId, CompletedFlag(initialTask));
      submitted := ApplySubmit(store, initialTask, data, localId, now, reply);
      isSubmitting := false;
      assert data == Data(uid, parse, subjectId);
    }

    /** `handleSubmit`. Returns how many times `onSubmit` was called. The
        reply is the id the server answered with when creating, or the
        failure of the request. */
    method HandleSubmit(user: Option<User>, store: TaskStore, parse: string -> int, colorDraw: real,
                        newCategoryId: string, localId: string, now: int, reply: Remote<string>)
      returns (submitted: nat)
      requires 0.0 <= colorDraw < 1.0
      modifies this`errors, this`isSubmitting, store`tasks, store`categories
      ensures (TitleField in errors <==> IsBlank(title)) && (DeadlineField in errors <==> deadline == "")
      ensures SubjectField in errors <==> subject == "" && newSubject == "" && !showNewSubject
      ensures !TaskFormValid(title, deadline, subject, newSubject, showNewSubject) || user.None? ==>
        && submitted == 0 && isSubmitting == old(isSubmitting)
        && store.tasks == old(store.tasks) && store.categories == old(store.categories)
      ensures TaskFormValid(title, deadline, subject, newSubject, showNewSubject) && user.Some? ==>
        && SubmitOutcome(old(store.tasks), old(store.categories), store.tasks, store.categories,
             initialTask, Data(user.value.id, parse, ResolveSubject(subject, newSubject, showNewSubject, newCategoryId)),
             newSubject, showNewSubject, newCategoryId, colorDraw, localId, now, reply, submitted)
        && !isSubmitting
    {
      var valid;
      errors, valid := ValidateTaskForm(title, deadline, subject, newSubject, showNewSubject);
      if !valid || user.None? {
        return 0;
      }
      assert TaskFormValid(title, deadline, subject, newSubject, showNewSubject);
      submitted := Proceed(user.value.id, store, parse, colorDraw, newCategoryId, localId, now, reply);
    }
  }
}
