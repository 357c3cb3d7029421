/** The profile page (src/pages/ProfilePage.tsx): the statistics it derives
    from the signed-in user's tasks, and the profile editor that renames the
    user only once the server has accepted the new name. */
module ProfilePage {
  import opened Common
  import opened Model
  import opened AuthStore

  /** `Math.round(100 * c / n)` for a non-negative ratio, as exact integer
      arithmetic: the nearest integer, halves rounded up. No tasks gives 0. */
  function RoundPercent(c: nat, n: nat): (r: nat)
    ensures n == 0 ==> r == 0
    ensures n > 0 ==> 2 * n * r <= 200 * c + n < 2 * n * r + 2 * n
    ensures c <= n ==> r <= 100
  {
    if n == 0 then 0
    else
      var r := (200 * c + n) / (2 * n);
      RoundPercentBounds(c, n, r);
      r
  }

  lemma RoundPercentBounds(c: nat, n: nat, r: int)
    requires n > 0 && r == (200 * c + n) / (2 * n)
    ensures 2 * n * r <= 200 * c + n < 2 * n * r + 2 * n
    ensures c <= n ==> r <= 100
  {
    var q := 2 * n;
    var m := 200 * c + n;
    DivIsBracket(m, q, r);
    if c <= n {
      DivMonotone(m, 201 * n, q);
      DivIsBracket(201 * n, q, 100);
    }
  }

  /** Integer division by q > 0 is the one r with q * r <= m < q * r + q. */
  lemma DivIsBracket(m: int, q: nat, r: int)
    requires q > 0
    ensures q * r <= m < q * r + q <==> m / q == r
  {
    var d := m / q;
    assert q * d <= m < q * d + q;
    if q * r <= m < q * r + q {
      CancelBelow(q, r, d);
      CancelBelow(q, d, r);
    }
  }

  lemma DivMonotone(a: nat, b: nat, q: nat)
    requires q > 0 && a <= b
    ensures a / q <= b / q
  {
    assert q * (a / q) <= a <= b < q * (b / q) + q;
    CancelBelow(q, a / q, b / q);
  }

  lemma CancelBelow(q: nat, x: int, y: int)
    requires q > 0 && q * x < q * y + q
    ensures x <= y
  {
    assert q * x - q * y == q * (x - y);
    assert x - y >= 1 ==> q * (x - y) >= q * 1;
  }

  /** No task done is 0%, every task done is 100%, and the rate never drops
      as tasks get done. (It can reach 100 with a task still open: 999 of
      1000 rounds up.) */
  lemma RoundPercentEnds(c1: nat, c2: nat, n: nat)
    requires 0 < n && c1 <= c2
    ensures RoundPercent(0, n) == 0 && RoundPercent(n, n) == 100
    ensures RoundPercent(c1, n) <= RoundPercent(c2, n)
  {
    var q := 2 * n;
    var zero := RoundPercent(0, n);
    if zero >= 1 {
      assert false;
    }
    var full := RoundPercent(n, n);
    assert q * full <= 201 * n < q * full + q;
    if full <= 99 {
      assert false;
    } else if full >= 101 {
      assert false;
    }
    DivMonotone(200 * c1 + n, 200 * c2 + n, q);
  }

  /** Open and due strictly before this very moment: the profile's notion of
      overdue, which unlike the task card's does not round to midnight. */
  function PastDueAt(now: int): Task -> bool {
    (t: Task) => !t.completed && t.deadline < now
  }

  /** The figures the page shows. `active` is a difference of two lengths in
      the page, hence an `int`. */
  datatype Stats = Stats(
    total: nat,
    completed: nat,
    completionRate: nat,
    active: int,
    overdue: nat,
    high: nat,
    medium: nat,
    low: nat)

  function UserTasks(tasks: seq<Task>, uid: string): seq<Task> {
    Filter(tasks, Owned(uid))
  }

  function ComputeStats(tasks: seq<Task>, uid: string, now: int): Stats {
    var mine := UserTasks(tasks, uid);
    var done := Filter(mine, IsDone);
    Stats(
      |mine|,
      |done|,
      RoundPercent(|done|, |mine|),
      |mine| - |done|,
      |Filter(mine, PastDueAt(now))|,
      |Filter(mine, HasPriority(High))|,
      |Filter(mine, HasPriority(Medium))|,
      |Filter(mine, HasPriority(Low))|)
  }

  /** What the cards and bars add up to: "active" counts exactly the open
      tasks, so completed plus active is the total; the rate is 0 without
      tasks and never leaves [0, 100]; the three priorities share out the
      total; and no more tasks are overdue than are open. */
  lemma StatsAddUp(tasks: seq<Task>, uid: string, now: int)
    ensures var s := ComputeStats(tasks, uid, now);
      && s.active == |Filter(UserTasks(tasks, uid), IsOpen)|
      && s.completed + s.active == s.total
      && (s.total == 0 ==> s.completionRate == 0)
      && s.completionRate <= 100
      && s.high + s.medium + s.low == s.total
      && s.overdue <= s.active
  {
    var mine := UserTasks(tasks, uid);
    FilterSplit(mine, IsDone, IsOpen);
    FilterSplit3(mine, HasPriority(High), HasPriority(Medium), HasPriority(Low));
    PastDueAreOpen(mine, now);
  }

  /** Past-due tasks are a sub-list of the open ones. */
  lemma {:induction false} PastDueAreOpen(s: seq<Task>, now: int)
    ensures |Filter(s, PastDueAt(now))| <= |Filter(s, IsOpen)|
  {
    if s != [] {
      PastDueAreOpen(s[1..], now);
    }
  }

  /** Only the user's own tasks count: adding tasks of other users changes no
      figure. */
  lemma OthersDoNotCount(tasks: seq<Task>, others: seq<Task>, uid: string, now: int)
    requires forall t :: t in others ==> t.userId != uid
    ensures ComputeStats(tasks + others, uid, now) == ComputeStats(tasks, uid, now)
  {
    FilterConcat(tasks, others, Owned(uid));
    assert Filter(others, Owned(uid)) == [] by {
      NoneOwned(others, uid);
    }
    assert UserTasks(tasks + others, uid) == UserTasks(tasks, uid);
  }

  lemma {:induction false} NoneOwned(s: seq<Task>, uid: string)
    requires forall t :: t in s ==> t.userId != uid
    ensures Filter(s, Owned(uid)) == []
  {
    if s != [] {
      assert s[0] in s;
      NoneOwned(s[1..], uid);
    }
  }

  /** An open task due earlier today, before now, is overdue on the profile
      but not on the task card or the home page. */
  lemma DueEarlierTodayCountsOnlyHere(t: Task, now: int)
    requires !t.completed && StartOfDay(now) <= t.deadline < now
    ensures PastDueAt(now)(t)
    ensures !IsOverdue(t, now)
  {
  }

  /** The profile card's editing state. The auth store is the one the page
      reads the user from. */
  class ProfileEditor {
    var name: string
    var isEditing: bool
    var isLoading: bool

    /** The page renders nothing without a user, so the editor starts from
        the signed-in user's name. */
    constructor (u: User)
      ensures name == u.name && !isEditing && !isLoading
    {
      name, isEditing, isLoading := u.name, false, false;
    }

    method StartEditing()
      modifies this`isEditing
      ensures isEditing
    {
      isEditing := true;
    }

    /** Cancel leaves editing and puts the stored name back in the field. */
    method Cancel(auth: AuthStore)
      requires auth.user.Some?
      modifies this`isEditing, this`name
      ensures !isEditing && name == auth.user.value.name
    {
      isEditing := false;
      name := auth.user.value.name;
    }

    /** `handleSaveProfile`: the outcome of the update-profile request is a
        parameter. The store is renamed, and editing ends, only on success;
        the loading flag is cleared either way. */
    method SaveProfile(auth: AuthStore, reply: Remote<()>)
      requires auth.user.Some?
      modifies this, auth`user
      ensures reply.Ok? ==> auth.user == Some(old(auth.user.value).(name := old(name))) && !isEditing
      ensures reply.Fail? ==> auth.user == old(auth.user) && isEditing == old(isEditing)
      ensures name == old(name) && !isLoading
      ensures auth.Valid() <==> old(auth.Valid())
    {
      isLoading := true;
      if reply.Ok? {
        NamePatchOnlyRenames(auth.user.value, name);
        auth.UpdateProfile(NamePatch(name));
        isEditing := false;
      }
      isLoading := false;
    }
  }
}
