/** The task view of the home page (src/pages/HomePage.tsx): the effect that
    scopes the store's tasks to the signed-in user, applies the bucket and
    priority filters and sorts by deadline, and the split of the result into
    the "Incomplete" and "Completed" sections. */
module HomePage {
  import opened Common
  import opened Model
  import opened TaskStore

  datatype Bucket = All | Today | Upcoming | Overdue | Completed

  datatype PriorityFilter = AnyPriority | Only(priority: Priority)

  /** Same calendar date as now, completed or not. */
  predicate DueToday(t: Task, now: int) {
    DayOf(t.deadline) == DayOf(now)
  }

  /** An open task due within seven days from now and not before today. */
  predicate DueThisWeek(t: Task, now: int) {
    !t.completed && t.deadline <= now + 7 * DAY && t.deadline >= StartOfDay(now)
  }

  /** Which tasks of the user each bucket keeps. "Upcoming" folds the overdue
      tasks in. */
  predicate InBucket(t: Task, bucket: Bucket, now: int) {
    match bucket
    case All => true
    case Today => DueToday(t, now)
    case Upcoming => IsOverdue(t, now) || DueThisWeek(t, now)
    case Overdue => IsOverdue(t, now)
    case Completed => t.completed
  }

  predicate MatchesPriority(t: Task, filter: PriorityFilter) {
    filter.AnyPriority? || t.priority == filter.priority
  }

  // The bucket predicates, named once so that every use is the same
  // function value.
  function DueTodayAt(now: int): Task -> bool { (t: Task) => DueToday(t, now) }
  function OverdueAt(now: int): Task -> bool { (t: Task) => IsOverdue(t, now) }
  function OwnedFromToday(uid: string, now: int): Task -> bool {
    (t: Task) => t.userId == uid && t.deadline >= StartOfDay(now)
  }
  function DueThisWeekAt(now: int): Task -> bool { (t: Task) => DueThisWeek(t, now) }
  function InBucketAt(bucket: Bucket, now: int): Task -> bool { (t: Task) => InBucket(t, bucket, now) }

  function OwnTasks(tasks: seq<Task>, uid: string): seq<Task> {
    Filter(tasks, Owned(uid))
  }

  /** The bucket step of the effect. The second half of "upcoming" is built,
      as in the page, from the store's `getUpcomingTasks(7)` over all tasks,
      then narrowed to the user and to deadlines from today on. */
  function ApplyBucket(tasks: seq<Task>, uid: string, bucket: Bucket, now: int): seq<Task> {
    var mine := OwnTasks(tasks, uid);
    match bucket
    case All => mine
    case Today => Filter(mine, DueTodayAt(now))
    case Upcoming => Filter(mine, OverdueAt(now)) + Filter(UpcomingTasks(tasks, 7, now), OwnedFromToday(uid, now))
    case Overdue => Filter(mine, OverdueAt(now))
    case Completed => Filter(mine, IsDone)
  }

  function ApplyPriority(s: seq<Task>, filter: PriorityFilter): seq<Task> {
    match filter
    case AnyPriority => s
    case Only(p) => Filter(s, HasPriority(p))
  }

  // ---------------------------------------------------------------------
  // Sorting by deadline (Array.prototype.sort is stable)
  // ---------------------------------------------------------------------

  predicate SortedByDeadline(s: seq<Task>) {
    forall i, j :: 0 <= i < j < |s| ==> s[i].deadline <= s[j].deadline
  }

  /** Places `x` before the first element whose deadline is not earlier. */
  function Insert(x: Task, r: seq<Task>): (res: seq<Task>)
    ensures |res| == |r| + 1
    ensures multiset(res) == multiset(r) + multiset{x}
  {
    if r == [] || x.deadline <= r[0].deadline then [x] + r
    else assert r == [r[0]] + r[1..]; [r[0]] + Insert(x, r[1..])
  }

  lemma {:induction false} InsertKeepsSorted(x: Task, r: seq<Task>)
    requires SortedByDeadline(r)
    ensures SortedByDeadline(Insert(x, r))
  {
    if r != [] && r[0].deadline < x.deadline {
      InsertKeepsSorted(x, r[1..]);
      var tail := Insert(x, r[1..]);
      forall y | y in tail ensures r[0].deadline <= y.deadline {
        assert y in multiset(tail);
        if y != x {
          assert y in multiset(r[1..]);
          var k :| 0 <= k < |r[1..]| && r[1..][k] == y;
          assert r[k + 1] == y;
        }
      }
      assert Insert(x, r) == [r[0]] + tail;
    }
  }

  /** The stable sort of the effect, as a function of the unsorted list. */
  function SortByDeadline(s: seq<Task>): (r: seq<Task>)
    ensures multiset(r) == multiset(s)
    ensures SortedByDeadline(r)
  {
    if s == [] then []
    else
      var rest := SortByDeadline(s[1..]);
      InsertKeepsSorted(s[0], rest);
      assert s == [s[0]] + s[1..];
      Insert(s[0], rest)
  }

  function WithDeadline(d: int): Task -> bool {
    (t: Task) => t.deadline == d
  }

  lemma {:induction false} InsertStable(x: Task, r: seq<Task>, d: int)
    ensures Filter(Insert(x, r), WithDeadline(d)) == (if x.deadline == d then [x] else []) + Filter(r, WithDeadline(d))
  {
    var p := WithDeadline(d);
    if r == [] || x.deadline <= r[0].deadline {
      FilterConcat([x], r, p);
    } else {
      InsertStable(x, r[1..], d);
      FilterConcat([r[0]], Insert(x, r[1..]), p);
      assert r == [r[0]] + r[1..];
      FilterConcat([r[0]], r[1..], p);
    }
  }

  /** Stability: the tasks sharing one deadline keep their relative order. */
  lemma {:induction false} SortStable(s: seq<Task>, d: int)
    ensures Filter(SortByDeadline(s), WithDeadline(d)) == Filter(s, WithDeadline(d))
  {
    if s != [] {
      SortStable(s[1..], d);
      InsertStable(s[0], SortByDeadline(s[1..]), d);
    }
  }

  /** Sorting a sorted list changes nothing, so sorting twice is sorting once. */
  lemma {:induction false} SortKeepsSorted(s: seq<Task>)
    requires SortedByDeadline(s)
    ensures SortByDeadline(s) == s
  {
    if s != [] {
      SortKeepsSorted(s[1..]);
      assert SortByDeadline(s) == Insert(s[0], s[1..]);
    }
  }

  lemma SortIdempotent(s: seq<Task>)
    ensures SortByDeadline(SortByDeadline(s)) == SortByDeadline(s)
  {
    SortKeepsSorted(SortByDeadline(s));
  }

  /** Putting `x` at position k of `r` is putting it at position k - 1 of
      `r`'s tail, behind `r`'s head. */
  lemma SpliceBehindHead<T>(x: T, r: seq<T>, k: nat)
    requires 0 < k <= |r|
    ensures [r[0]] + (r[1..][..k - 1] + [x] + r[1..][k - 1..]) == r[..k] + [x] + r[k..]
  {
    assert r[1..][..k - 1] == r[1..k];
    assert r[1..][k - 1..] == r[k..];
    assert r[..k] == [r[0]] + r[1..k];
  }

  /** Where the shifting loop of SortInPlace puts `x`. */
  lemma {:induction false} InsertAt(x: Task, r: seq<Task>, k: nat)
    requires k <= |r|
    requires forall m :: 0 <= m < k ==> r[m].deadline < x.deadline
    requires k == |r| || x.deadline <= r[k].deadline
    ensures Insert(x, r) == r[..k] + [x] + r[k..]
  {
    if k == 0 {
      assert Insert(x, r) == [x] + r;
    } else {
      assert r[0].deadline < x.deadline;
      assert Insert(x, r) == [r[0]] + Insert(x, r[1..]);
      InsertAt(x, r[1..], k - 1);
      SpliceBehindHead(x, r, k);
    }
  }

  /** One step of the right-to-left sort: the suffix from i - 1 sorts to its
      head inserted into the sorted suffix from i. */
  lemma SortSuffixStep(s: seq<Task>, i: nat)
    requires 0 < i <= |s|
    ensures SortByDeadline(s[i - 1..]) == Insert(s[i - 1], SortByDeadline(s[i..]))
  {
    assert s[i - 1..][1..] == s[i..];
  }

  /** A sequence that agrees with `r` before k, holds `x` at k and agrees
      with `r` one place further on after k is `r` with `x` spliced in at k. */
  lemma SpliceFromPointwise<T>(s: seq<T>, r: seq<T>, k: nat, x: T)
    requires k <= |r| && |s| == |r| + 1
    requires forall m :: 0 <= m < k ==> s[m] == r[m]
    requires s[k] == x
    requires forall m :: k < m < |s| ==> s[m] == r[m - 1]
    ensures s == r[..k] + [x] + r[k..]
  {
  }

  /** The inner loop of the sort: moves the tasks of a[i..] that are due
      strictly before `x` one place left, opening a gap at the returned j. */
  method ShiftEarlier(a: array<Task>, i: nat, x: Task) returns (j: nat)
    requires 0 < i <= a.Length
    modifies a
    ensures i - 1 <= j < a.Length
    ensures forall m :: 0 <= m < a.Length && (m < i - 1 || j < m) ==> a[m] == old(a[m])
    ensures forall m :: i - 1 <= m < j ==> a[m] == old(a[m + 1])
    ensures forall m :: i <= m <= j ==> old(a[m]).deadline < x.deadline
    ensures j + 1 == a.Length || x.deadline <= old(a[j + 1]).deadline
  {
    j := i - 1;
    while j + 1 < a.Length && a[j + 1].deadline < x.deadline
      invariant i - 1 <= j < a.Length
      invariant forall m :: 0 <= m < a.Length && (m < i - 1 || j < m) ==> a[m] == old(a[m])
      invariant forall m :: i - 1 <= m < j ==> a[m] == old(a[m + 1])
      invariant forall m :: i <= m <= j ==> old(a[m]).deadline < x.deadline
    {
      a[j] := a[j + 1];
      j := j + 1;
    }
  }

  /** What one outer step does, on the array's contents before and after:
      shifting the tasks due before x left and writing x into the gap is
      inserting x into the suffix. */
  lemma ShiftedIsInserted(before: seq<Task>, after: seq<Task>, i: nat, j: nat)
    requires 0 < i <= j + 1 <= |before| == |after|
    requires forall m :: 0 <= m < |after| && (m < i - 1 || j < m) ==> after[m] == before[m]
    requires forall m :: i - 1 <= m < j ==> after[m] == before[m + 1]
    requires after[j] == before[i - 1]
    requires forall m :: i <= m <= j ==> before[m].deadline < before[i - 1].deadline
    requires j + 1 == |before| || before[i - 1].deadline <= before[j + 1].deadline
    ensures after[..i - 1] == before[..i - 1]
    ensures after[i - 1..] == Insert(before[i - 1], before[i..])
  {
    var r := before[i..];
    var x := before[i - 1];
    var k := j - i + 1;
    SpliceFromPointwise(after[i - 1..], r, k, x);
    InsertAt(x, r, k);
  }

  /** One outer step of the sort: a[i - 1] goes into its place in a[i..]. */
  method InsertIntoSuffix(a: array<Task>, i: nat)
    requires 0 < i <= a.Length
    modifies a
    ensures a[..i - 1] == old(a[..i - 1])
    ensures a[i - 1..] == Insert(old(a[i - 1]), old(a[i..]))
  {
    ghost var before := a[..];
    var x := a[i - 1];
    var j := ShiftEarlier(a, i, x);
    a[j] := x;
    ShiftedIsInserted(before, a[..], i, j);
    assert before[..i - 1] == old(a[..i - 1]) && before[i..] == old(a[i..]);
  }

  /** Insertion sort in place, from the right: the suffix a[i..] is always the
      sorted form of its original contents. */
  method SortInPlace(a: array<Task>)
    modifies a
    ensures a[..] == SortByDeadline(old(a[..]))
  {
    ghost var orig := a[..];
    var i := a.Length;
    while i > 0
      invariant 0 <= i <= a.Length
      invariant a[..i] == orig[..i]
      invariant a[i..] == SortByDeadline(orig[i..])
    {
      InsertIntoSuffix(a, i);
      SortSuffixStep(orig, i);
      i := i - 1;
    }
    assert orig[0..] == orig;
  }

  // ---------------------------------------------------------------------
  // The effect
  // ---------------------------------------------------------------------

  /** What the effect stores in `filteredTasks`. */
  function FilteredView(tasks: seq<Task>, uid: string, bucket: Bucket, filter: PriorityFilter, now: int): seq<Task> {
    SortByDeadline(ApplyPriority(ApplyBucket(tasks, uid, bucket, now), filter))
  }

  /** Every bucket keeps exactly the user's tasks that its rule admits. */
  lemma BucketMembership(tasks: seq<Task>, uid: string, bucket: Bucket, now: int)
    ensures forall t :: t in ApplyBucket(tasks, uid, bucket, now) <==> t in tasks && t.userId == uid && InBucket(t, bucket, now)
  {
  }

  /** One task is in the view exactly when it is the user's, its bucket admits
      it and it has the chosen priority. */
  lemma ViewMember(tasks: seq<Task>, uid: string, bucket: Bucket, filter: PriorityFilter, now: int, t: Task)
    ensures t in FilteredView(tasks, uid, bucket, filter, now) <==>
      t in tasks && t.userId == uid && InBucket(t, bucket, now) && MatchesPriority(t, filter)
  {
    var b := ApplyBucket(tasks, uid, bucket, now);
    var p := ApplyPriority(b, filter);
    BucketMembership(tasks, uid, bucket, now);
    assert t in SortByDeadline(p) <==> t in multiset(p);
  }

  lemma ViewMembership(tasks: seq<Task>, uid: string, bucket: Bucket, filter: PriorityFilter, now: int)
    ensures forall t :: t in FilteredView(tasks, uid, bucket, filter, now) <==>
      t in tasks && t.userId == uid && InBucket(t, bucket, now) && MatchesPriority(t, filter)
  {
    forall t {
      ViewMember(tasks, uid, bucket, filter, now, t);
    }
  }

  /** The method the page runs: the filter pipeline, then the in-place sort of
      the array. */
  method ComputeFilteredTasks(tasks: seq<Task>, uid: string, bucket: Bucket, filter: PriorityFilter, now: int)
    returns (result: seq<Task>)
    ensures result == FilteredView(tasks, uid, bucket, filter, now)
    ensures forall t :: t in result <==> t in tasks && t.userId == uid && InBucket(t, bucket, now) && MatchesPriority(t, filter)
    ensures SortedByDeadline(result)
  {
    result := Filter(tasks, Owned(uid));
    if bucket == Today {
      result := Filter(result, DueTodayAt(now));
    } else if bucket == Upcoming {
      var overdueTasks := Filter(result, OverdueAt(now));
      var upcomingTasks := Filter(UpcomingTasks(tasks, 7, now), OwnedFromToday(uid, now));
      result := overdueTasks + upcomingTasks;
    } else if bucket == Overdue {
      result := Filter(result, OverdueAt(now));
    } else if bucket == Completed {
      result := Filter(result, IsDone);
    }
    if filter.Only? {
      result := Filter(result, HasPriority(filter.priority));
    }
    var unsorted := result;
    var a := new Task[|unsorted|](k requires 0 <= k < |unsorted| => unsorted[k]);
    assert a[..] == unsorted;
    SortInPlace(a);
    result := a[..];
    ViewMembership(tasks, uid, bucket, filter, now);
  }

  class HomeView {
    var filteredTasks: seq<Task>

    /** The effect returns early when nobody is signed in. */
    method RunFilterEffect(user: Option<User>, tasks: seq<Task>, bucket: Bucket, filter: PriorityFilter, now: int)
      modifies this
      ensures user.None? ==> filteredTasks == old(filteredTasks)
      ensures user.Some? ==> filteredTasks == FilteredView(tasks, user.value.id, bucket, filter, now)
    {
      if user.Some? {
        filteredTasks := ComputeFilteredTasks(tasks, user.value.id, bucket, filter, now);
      }
    }
  }

  // ---------------------------------------------------------------------
  // Sections
  // ---------------------------------------------------------------------

  function IncompleteTasks(view: seq<Task>): seq<Task> {
    Filter(view, IsOpen)
  }

  function CompletedTasks(view: seq<Task>): seq<Task> {
    Filter(view, IsDone)
  }

  predicate ShowIncompleteSection(bucket: Bucket) {
    bucket != Completed
  }

  predicate ShowCompletedSection(bucket: Bucket) {
    bucket != Upcoming && bucket != Overdue
  }

  /** The two sections split the view: together they hold every task of it
      exactly once, and each keeps the view's order (they are filters). */
  lemma SectionsPartitionView(view: seq<Task>)
    ensures multiset(IncompleteTasks(view)) + multiset(CompletedTasks(view)) == multiset(view)
    ensures |IncompleteTasks(view)| + |CompletedTasks(view)| == |view|
    ensures forall t :: t in IncompleteTasks(view) ==> !t.completed
    ensures forall t :: t in CompletedTasks(view) ==> t.completed
  {
    FilterSplit(view, IsOpen, IsDone);
  }

  /** Each section keeps the view's order: over a concatenation it is the
      sections of the parts, and one task lands in exactly one of them. */
  lemma SectionsKeepOrder(a: seq<Task>, b: seq<Task>, t: Task)
    ensures IncompleteTasks(a + b) == IncompleteTasks(a) + IncompleteTasks(b)
    ensures CompletedTasks(a + b) == CompletedTasks(a) + CompletedTasks(b)
    ensures IncompleteTasks([t]) == (if t.completed then [] else [t])
    ensures CompletedTasks([t]) == (if t.completed then [t] else [])
  {
    FilterConcat(a, b, IsOpen);
    FilterConcat(a, b, IsDone);
    assert [t][1..] == [];
  }

  /** Hiding a section never hides a task: the hidden section is empty. */
  lemma HiddenSectionIsEmpty(tasks: seq<Task>, uid: string, bucket: Bucket, filter: PriorityFilter, now: int)
    ensures !ShowIncompleteSection(bucket) ==> IncompleteTasks(FilteredView(tasks, uid, bucket, filter, now)) == []
    ensures !ShowCompletedSection(bucket) ==> CompletedTasks(FilteredView(tasks, uid, bucket, filter, now)) == []
  {
    var v := FilteredView(tasks, uid, bucket, filter, now);
    if !ShowIncompleteSection(bucket) {
      var s := IncompleteTasks(v);
      if s != [] {
        ViewMember(tasks, uid, bucket, filter, now, s[0]);
        assert false;
      }
    }
    if !ShowCompletedSection(bucket) {
      var s := CompletedTasks(v);
      if s != [] {
        ViewMember(tasks, uid, bucket, filter, now, s[0]);
        BeforeStartOfDay(s[0].deadline, now);
        assert false;
      }
    }
  }

  /** The two halves of "upcoming" never share a task, and together they are
      the user's tasks that are overdue or due this week, each exactly as
      often as in the store: nothing is listed twice. */
  lemma UpcomingIsDisjointUnion(tasks: seq<Task>, uid: string, now: int)
    ensures ApplyBucket(tasks, uid, Upcoming, now)
      == Filter(OwnTasks(tasks, uid), OverdueAt(now)) + Filter(OwnTasks(tasks, uid), DueThisWeekAt(now))
    ensures forall t :: !(IsOverdue(t, now) && DueThisWeek(t, now))
    ensures multiset(ApplyBucket(tasks, uid, Upcoming, now))
      == multiset(Filter(OwnTasks(tasks, uid), InBucketAt(Upcoming, now)))
  {
    FilterFilterSame(tasks, OpenAndDueBy(now + 7 * DAY), OwnedFromToday(uid, now), Owned(uid), DueThisWeekAt(now));
    FilterUnionOfDisjoint(OwnTasks(tasks, uid), OverdueAt(now), DueThisWeekAt(now), InBucketAt(Upcoming, now));
  }

  lemma {:induction false} FilterUnionOfDisjoint(s: seq<Task>, p: Task -> bool, q: Task -> bool, u: Task -> bool)
    requires forall x :: !(p(x) && q(x))
    requires forall x :: u(x) <==> p(x) || q(x)
    ensures multiset(Filter(s, p)) + multiset(Filter(s, q)) == multiset(Filter(s, u))
  {
    if s != [] {
      FilterUnionOfDisjoint(s[1..], p, q, u);
    }
  }

  /** Every overdue task is also listed under "upcoming", and neither bucket
      ever lists a completed task. */
  lemma OverdueWithinUpcoming(tasks: seq<Task>, uid: string, filter: PriorityFilter, now: int)
    ensures forall t :: t in FilteredView(tasks, uid, Overdue, filter, now) ==> t in FilteredView(tasks, uid, Upcoming, filter, now)
    ensures forall t :: t in FilteredView(tasks, uid, Upcoming, filter, now) ==> !t.completed
  {
    ViewMembership(tasks, uid, Overdue, filter, now);
    ViewMembership(tasks, uid, Upcoming, filter, now);
  }

  /** A task of the user, still open and due tomorrow, is listed under
      "upcoming"; its bucket rules put it neither under "today" nor under
      "overdue". */
  lemma DueTomorrowIsUpcoming(tasks: seq<Task>, t: Task, now: int)
    requires t in tasks && !t.completed && DayOf(t.deadline) == DayOf(now) + 1
    ensures t in FilteredView(tasks, t.userId, Upcoming, AnyPriority, now)
    ensures !InBucket(t, Today, now) && !InBucket(t, Overdue, now) && !InBucket(t, Completed, now)
  {
    NextDayBounds(t.deadline, now);
    ViewMember(tasks, t.userId, Upcoming, AnyPriority, now, t);
  }

  /** A task of the user, still open, whose day has passed, is listed under
      "overdue"; its bucket rules also put it under "upcoming" and neither
      under "today" nor under "completed". */
  lemma PastDueIsOverdueAndUpcoming(tasks: seq<Task>, t: Task, now: int)
    requires t in tasks && !t.completed && DayOf(t.deadline) < DayOf(now)
    ensures t in FilteredView(tasks, t.userId, Overdue, AnyPriority, now)
    ensures InBucket(t, Upcoming, now) && !InBucket(t, Today, now) && !InBucket(t, Completed, now)
  {
    BeforeStartOfDay(t.deadline, now);
    ViewMember(tasks, t.userId, Overdue, AnyPriority, now, t);
  }
}
