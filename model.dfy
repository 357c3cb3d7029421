/** The client's records (src/types/index.ts) and the one deadline rule that
    two screens share. Dates are millisecond timestamps. */
module Model {
  import opened Common

  datatype Priority = Low | Medium | High

  datatype Task = Task(
    id: string,
    userId: string,
    title: string,
    description: string,
    priority: Priority,
    deadline: int,
    subject: string,     // the id of a Category
    completed: bool,
    createdAt: int,
    updatedAt: int)

  datatype Category = Category(id: string, userId: string, name: string, color: string)

  datatype User = User(id: string, name: string, email: string, avatar: Option<string>, createdAt: int)

  // The task predicates the filters of several screens apply, named once so
  // that every use is the same function value.
  function Owned(uid: string): Task -> bool { (t: Task) => t.userId == uid }
  function HasPriority(p: Priority): Task -> bool { (t: Task) => t.priority == p }
  const IsDone: Task -> bool := (t: Task) => t.completed
  const IsOpen: Task -> bool := (t: Task) => !t.completed

  /** A task is overdue when it is still open and its deadline lies before
      midnight of today; a task due later today is not overdue. */
  predicate IsOverdue(t: Task, now: int) {
    !t.completed && t.deadline < StartOfDay(now)
  }

  /** Overdue is a comparison of calendar days, so nothing due today is overdue. */
  lemma OverdueIsEarlierDay(t: Task, now: int)
    ensures IsOverdue(t, now) <==> !t.completed && DayOf(t.deadline) < DayOf(now)
    ensures DayOf(t.deadline) == DayOf(now) ==> !IsOverdue(t, now)
  {
    BeforeStartOfDay(t.deadline, now);
  }
}
