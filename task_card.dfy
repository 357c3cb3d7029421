/** One task on screen (src/components/tasks/TaskCard.tsx): its deadline
    label, its subject name, and the delete and toggle buttons, which change
    the local store whatever the server answered. The overdue flag of the
    card is `Model.IsOverdue`. */
module TaskCard {
  import opened Common
  import opened Model
  import opened TaskStore

  // ---------------------------------------------------------------------
  // The deadline label
  // ---------------------------------------------------------------------

  /** The text the card shows under the title. An absolute date is shown
      through the date library's formatting, which is not modelled: the label
      keeps the deadline it formats. */
  datatype DeadlineLabel = TodayLabel | TomorrowLabel | InDays(n: int) | AbsoluteDate(deadline: int)

  /** `differenceInDays(d, now)`: the number of whole 24-hour periods from
      now to d, truncated toward zero (so negative when d is past). */
  function DifferenceInDays(d: int, now: int): (r: int)
    ensures d >= now ==> 0 <= r && r * DAY <= d - now < r * DAY + DAY
    ensures d < now ==> r <= 0 && r * DAY - DAY < d - now <= r * DAY
  {
    if d >= now then (d - now) / DAY else -((now - d) / DAY)
  }

  /** `formatDeadline` as written: today, tomorrow, then "In N days" for
      0 < N < 7 whole 24-hour periods, else the date. */
  function FormatDeadline(d: int, now: int): (r: DeadlineLabel)
    ensures r == TodayLabel <==> DayOf(d) == DayOf(now)
    ensures r == TomorrowLabel <==> DayOf(d) == DayOf(now) + 1
    ensures r.InDays? <==>
      && DayOf(d) != DayOf(now) && DayOf(d) != DayOf(now) + 1
      && 0 < DifferenceInDays(d, now) < 7
    ensures r.InDays? ==> r.n == DifferenceInDays(d, now)
    ensures r.InDays? ==> DayOf(d) >= DayOf(now) + 2
    ensures r.AbsoluteDate? ==> r.deadline == d
  {
    if DayOf(d) == DayOf(now) then TodayLabel
    else if DayOf(d) == DayOf(now) + 1 then TomorrowLabel
    else
      var n := DifferenceInDays(d, now);
      if 0 < n < 7 then InDays(n) else AbsoluteDate(d)
  }

  /** A deadline at 01:00 two calendar days ahead, seen at 23:00, is a day
      and two hours away: the card says "In 1 days" for a deadline that is
      neither today nor tomorrow but the day after. */
  lemma InOneDayTwoDaysAhead()
    ensures var now, d := DAY - 3600000, 2 * DAY + 3600000;
      && DayOf(d) == DayOf(now) + 2
      && FormatDeadline(d, now) == InDays(1)
  {
    var now, d := DAY - 3600000, 2 * DAY + 3600000;
    assert DayOf(now) == 0 && DayOf(d) == 2;
    assert DifferenceInDays(d, now) == 1;
  }

  /** The rule the labels "Today" and "Tomorrow" set up, carried on: "In N
      days" counts calendar days, so it starts at 2 and agrees with the day
      the deadline falls on. */
  function FormatDeadlineByCalendar(d: int, now: int): (r: DeadlineLabel)
    ensures r == TodayLabel <==> DayOf(d) == DayOf(now)
    ensures r == TomorrowLabel <==> DayOf(d) == DayOf(now) + 1
    ensures r.InDays? <==> 2 <= DayOf(d) - DayOf(now) < 7
    ensures r.InDays? ==> r.n == DayOf(d) - DayOf(now)
    ensures r.AbsoluteDate? ==> r.deadline == d
  {
    var n := DayOf(d) - DayOf(now);
    if n == 0 then TodayLabel
    else if n == 1 then TomorrowLabel
    else if 2 <= n < 7 then InDays(n)
    else AbsoluteDate(d)
  }

  /** The two rules agree on "Today" and "Tomorrow"; wherever the card as
      written counts days it is at most one short of the calendar count; and
      wherever the calendar rule counts days the card counts them too, the
      same number or one less. */
  lemma CalendarLabelRefinesCard(d: int, now: int)
    ensures FormatDeadline(d, now) == TodayLabel <==> FormatDeadlineByCalendar(d, now) == TodayLabel
    ensures FormatDeadline(d, now) == TomorrowLabel <==> FormatDeadlineByCalendar(d, now) == TomorrowLabel
    ensures FormatDeadline(d, now).InDays? ==>
      var n := FormatDeadline(d, now).n;
      n <= DayOf(d) - DayOf(now) <= n + 1
    ensures FormatDeadlineByCalendar(d, now).InDays? ==>
      && FormatDeadline(d, now).InDays?
      && FormatDeadline(d, now).n <= FormatDeadlineByCalendar(d, now).n <= FormatDeadline(d, now).n + 1
  {
    var r := FormatDeadline(d, now);
    if r.InDays? {
      var n := r.n;
      assert n * DAY <= d - now < n * DAY + DAY;
      CalendarDaysBetween(d, now, n);
    }
    if FormatDeadlineByCalendar(d, now).InDays? {
      WholeDaysBetween(d, now, DayOf(d) - DayOf(now));
    }
  }

  /** A deadline m >= 1 calendar days ahead is m - 1 or m whole days away. */
  lemma WholeDaysBetween(d: int, now: int, m: int)
    requires 1 <= m && DayOf(d) - DayOf(now) == m
    ensures m - 1 <= DifferenceInDays(d, now) <= m
  {
    var s := StartOfDay(now);
    assert s + m * DAY <= d by {
      assert StartOfDay(d) == DayOf(d) * DAY == s + m * DAY;
    }
    assert d < s + (m + 1) * DAY by {
      assert DayOf(d) * DAY == s + m * DAY;
    }
    assert (m - 1) * DAY < d - now < (m + 1) * DAY;
  }

  /** n whole days from now to d put d n or n + 1 calendar days ahead. */
  lemma CalendarDaysBetween(d: int, now: int, n: int)
    requires 0 <= n && n * DAY <= d - now < n * DAY + DAY
    ensures n <= DayOf(d) - DayOf(now) <= n + 1
  {
    var s := StartOfDay(now);
    assert s + n * DAY <= d < s + (n + 2) * DAY;
    assert DayOf(s + n * DAY) == DayOf(now) + n;
    assert DayOf(s + (n + 2) * DAY) == DayOf(now) + n + 2;
  }

  // ---------------------------------------------------------------------
  // The subject name
  // ---------------------------------------------------------------------

  const UnknownSubject: string := "Unknown Subject"

  function HasId(id: string): Category -> bool {
    (c: Category) => c.id == id
  }

  /** `getSubjectName`: the name of the first category whose id is the task's
      subject, else the fallback. */
  function SubjectName(categories: seq<Category>, subject: string): (r: string)
    ensures (forall i :: 0 <= i < |categories| ==> categories[i].id != subject) ==> r == UnknownSubject
    ensures forall k ::
      (0 <= k < |categories| && categories[k].id == subject &&
       forall j :: 0 <= j < k ==> categories[j].id != subject) ==> r == categories[k].name
  {
    match FindIndex(categories, HasId(subject))
    case Some(k) => categories[k].name
    case None => UnknownSubject
  }

  // ---------------------------------------------------------------------
  // The buttons
  // ---------------------------------------------------------------------

  /** `handleDeleteTask`: the outcome of the DELETE request is a parameter. A
      failed request, or one the server answers with an error status, still
      deletes locally; either way the store deletes exactly once. */
  method HandleDeleteTask(store: TaskStore, id: string, reply: Remote<()>)
    modifies store`tasks
    ensures store.tasks == RemoveById(old(store.tasks), id)
  {
    if reply.Ok? {
      store.DeleteTask(id);
    } else {
      store.DeleteTask(id);
    }
  }

  /** `handleToggleCompletion`: toggles locally exactly once, whatever the
      PATCH request's outcome. */
  method HandleToggleCompletion(store: TaskStore, id: string, now: int, reply: Remote<()>)
    modifies store`tasks
    ensures store.tasks == ToggleById(old(store.tasks), id, now)
  {
    if reply.Ok? {
      store.ToggleTaskCompletion(id, now);
    } else {
      store.ToggleTaskCompletion(id, now);
    }
  }
}
