/**
 * The calendar view: per-day progress, the task toggle it sends to the
 * page, the progress summary counts, the availability guard on opening a
 * day and the re-synchronisation of the open day with fresh data.
 */
module Calendar {

  import opened Wrappers
  import opened Tasks
  import opened App

  /** `getDayProgress`: how many of the day's three tasks are done. */
  function GetDayProgress(d: DayData): (n: nat)
    ensures n <= 3
    ensures n == 0 <==> d.tasks.IsNone()
    ensures n == 3 <==> d.tasks.IsAll()
  {
    d.tasks.Count()
  }

  /** `k` is the index of the first record whose day is `day`. */
  predicate IsFirstWithDay(days: seq<DayData>, day: int, k: int) {
    0 <= k < |days| && days[k].day == day && forall j :: 0 <= j < k ==> days[j].day != day
  }

  /** No record has day `day`. */
  predicate NoRecordFor(days: seq<DayData>, day: int) {
    forall i :: 0 <= i < |days| ==> days[i].day != day
  }

  /** The position `calendarData.find(d => d.day === day)` stops at, if any. */
  function FindIndex(days: seq<DayData>, day: int): (r: Option<nat>)
    ensures r.Some? ==> IsFirstWithDay(days, day, r.value)
    ensures r.None? <==> NoRecordFor(days, day)
  {
    if days == [] then None
    else if days[0].day == day then Some(0)
    else match FindIndex(days[1..], day)
      case None => None
      case Some(k) => Some(k + 1)
  }

  /** There is only one first match. */
  lemma FirstWithDayUnique(days: seq<DayData>, day: int, k1: int, k2: int)
    requires IsFirstWithDay(days, day, k1) && IsFirstWithDay(days, day, k2)
    ensures k1 == k2
  {
  }

  /** `calendarData.find(d => d.day === day)`: the first record of that day, if there is one. */
  function FindDay(days: seq<DayData>, day: int): (r: Option<DayData>)
    ensures r.None? <==> NoRecordFor(days, day)
    ensures forall k :: IsFirstWithDay(days, day, k) ==> r == Some(days[k])
  {
    match FindIndex(days, day)
    case None => None
    case Some(k) =>
      assert forall k' :: IsFirstWithDay(days, day, k') ==> k' == k by {
        forall k' | IsFirstWithDay(days, day, k') ensures k' == k { FirstWithDayUnique(days, day, k, k'); }
      }
      Some(days[k])
  }

  /** The arguments of one `onTaskUpdate(day, task, completed)` call. */
  datatype TaskUpdate = TaskUpdate(day: int, task: Task, completed: bool)

  /**
   * `handleTaskToggle(day, task)`: asks for the negation of the flag in the
   * first record of that day, and asks for nothing when there is no such record.
   */
  function HandleTaskToggle(days: seq<DayData>, day: int, t: Task): (r: Option<TaskUpdate>)
    ensures r.None? <==> NoRecordFor(days, day)
    ensures forall k :: IsFirstWithDay(days, day, k) ==> r == Some(TaskUpdate(day, t, !days[k].tasks.Get(t)))
  {
    match FindDay(days, day)
    case None => None
    case Some(current) => Some(TaskUpdate(day, t, !current.tasks.Get(t)))
  }

  /** The calendar page after a toggle: the request of `HandleTaskToggle` applied by `HandleTaskUpdate`. */
  function ApplyToggle(days: seq<DayData>, day: int, t: Task): seq<DayData> {
    match HandleTaskToggle(days, day, t)
    case None => days
    case Some(u) => HandleTaskUpdate(days, u.day, u.task, u.completed)
  }

  /** No two records share a day number. */
  predicate UniqueDays(days: seq<DayData>) {
    forall i, j :: 0 <= i < j < |days| ==> days[i].day != days[j].day
  }

  /**
   * With one record per day, a toggle negates exactly flag `t` of the record
   * of that day and leaves every other field and record as it was.
   */
  lemma ToggleFlipsExactlyThatFlag(days: seq<DayData>, day: int, t: Task)
    requires UniqueDays(days)
    ensures |ApplyToggle(days, day, t)| == |days|
    ensures forall i :: 0 <= i < |days| && days[i].day == day ==>
      OnlyTaskSet(days[i], ApplyToggle(days, day, t)[i], t, !days[i].tasks.Get(t))
    ensures forall i :: 0 <= i < |days| && days[i].day != day ==> ApplyToggle(days, day, t)[i] == days[i]
  {
    forall i | 0 <= i < |days| && days[i].day == day
      ensures OnlyTaskSet(days[i], ApplyToggle(days, day, t)[i], t, !days[i].tasks.Get(t))
    {
      assert IsFirstWithDay(days, day, i);
    }
  }

  /** With one record per day, toggling the same task of the same day twice restores the list. */
  lemma ToggleTwiceRestores(days: seq<DayData>, day: int, t: Task)
    requires UniqueDays(days)
    ensures ApplyToggle(ApplyToggle(days, day, t), day, t) == days
  {
    var once := ApplyToggle(days, day, t);
    ToggleFlipsExactlyThatFlag(days, day, t);
    assert UniqueDays(once);
    var twice := ApplyToggle(once, day, t);
    ToggleFlipsExactlyThatFlag(once, day, t);
    forall i | 0 <= i < |days| ensures twice[i] == days[i] {
      if days[i].day == day {
        assert OnlyTaskSet(days[i], twice[i], t, days[i].tasks.Get(t));
        assert OnlyTaskSet(days[i], days[i], t, days[i].tasks.Get(t));
        OnlyTaskSetDetermines(days[i], twice[i], days[i], t, days[i].tasks.Get(t));
      }
    }
  }

  /** "Días Completados": `calendarData.filter(d => d.completed).length`. */
  function CompletedDays(days: seq<DayData>): (n: nat)
    ensures n <= |days|
    ensures n == 0 <==> forall i :: 0 <= i < |days| ==> !days[i].completed
    ensures n == |days| <==> forall i :: 0 <= i < |days| ==> days[i].completed
  {
    if days == [] then 0 else (if days[0].completed then 1 else 0) + CompletedDays(days[1..])
  }

  /** "Meditaciones", "Videos", "Rosarios": `calendarData.filter(d => d.tasks[t]).length`. */
  function TaskCount(days: seq<DayData>, t: Task): (n: nat)
    ensures n <= |days|
    ensures n == 0 <==> forall i :: 0 <= i < |days| ==> !days[i].tasks.Get(t)
    ensures n == |days| <==> forall i :: 0 <= i < |days| ==> days[i].tasks.Get(t)
  {
    if days == [] then 0 else (if days[0].tasks.Get(t) then 1 else 0) + TaskCount(days[1..], t)
  }

  /** The sum of the "n/3" figures shown on the day cards. */
  function CardProgressSum(days: seq<DayData>): nat {
    if days == [] then 0 else GetDayProgress(days[0]) + CardProgressSum(days[1..])
  }

  /** The three task summaries add up to the sum of the per-card progress figures. */
  lemma {:induction false} SummaryCountsAddUp(days: seq<DayData>)
    ensures TaskCount(days, Meditation) + TaskCount(days, Video) + TaskCount(days, Rosary) == CardProgressSum(days)
  {
    if days != [] {
      SummaryCountsAddUp(days[1..]);
    }
  }

  /** A task update never changes "Días Completados": `completed` is not derived from the flags. */
  lemma {:induction false} UpdateKeepsCompletedDays(days: seq<DayData>, day: int, t: Task, v: bool)
    ensures CompletedDays(HandleTaskUpdate(days, day, t, v)) == CompletedDays(days)
  {
    if days != [] {
      var r := HandleTaskUpdate(days, day, t, v);
      assert r[1..] == HandleTaskUpdate(days[1..], day, t, v);
      UpdateKeepsCompletedDays(days[1..], day, t, v);
    }
  }

  /** A task update leaves the summaries of the other two tasks unchanged. */
  lemma {:induction false} UpdateKeepsOtherTaskCounts(days: seq<DayData>, day: int, t: Task, v: bool, u: Task)
    requires u != t
    ensures TaskCount(HandleTaskUpdate(days, day, t, v), u) == TaskCount(days, u)
  {
    if days != [] {
      var r := HandleTaskUpdate(days, day, t, v);
      assert r[1..] == HandleTaskUpdate(days[1..], day, t, v);
      UpdateKeepsOtherTaskCounts(days[1..], day, t, v, u);
    }
  }

  /**
   * The card click `day.isAvailable && handleDayClick(day)`. Afterwards the
   * open day is the one before or the clicked card; the clicked card is open
   * exactly when it is available or was already open; and a click never
   * opens an unavailable day.
   */
  function HandleDayClick(selected: Option<DayData>, d: DayData): (r: Option<DayData>)
    ensures r == selected || r == Some(d)
    ensures r == Some(d) <==> d.isAvailable || selected == Some(d)
    ensures (selected.Some? ==> selected.value.isAvailable) ==> (r.Some? ==> r.value.isAvailable)
  {
    if d.isAvailable then Some(d) else selected
  }

  /** The open day after a series of card clicks. */
  function ClickAll(selected: Option<DayData>, clicks: seq<DayData>): Option<DayData>
    decreases clicks
  {
    if clicks == [] then selected else ClickAll(HandleDayClick(selected, clicks[0]), clicks[1..])
  }

  /**
   * Starting with no open day or an available one, the day open after any
   * series of clicks is available, and is the one open before or a clicked card.
   */
  lemma {:induction false} OpenedDayWasAvailable(selected: Option<DayData>, clicks: seq<DayData>)
    requires selected.Some? ==> selected.value.isAvailable
    ensures var r := ClickAll(selected, clicks);
      r.Some? ==> r.value.isAvailable && (r == selected || r.value in clicks)
    decreases clicks
  {
    if clicks != [] {
      var next := HandleDayClick(selected, clicks[0]);
      OpenedDayWasAvailable(next, clicks[1..]);
    }
  }

  /**
   * The effect that keeps `selectedDay` in sync with `calendarData`: an open
   * day is replaced by the first record with the same day number when there
   * is one, and is otherwise left as it is.
   */
  function ResyncSelection(selected: Option<DayData>, days: seq<DayData>): (r: Option<DayData>)
    ensures selected.None? ==> r.None?
    ensures selected.Some? ==> r.Some? && r.value.day == selected.value.day
    ensures selected.Some? ==> forall k :: IsFirstWithDay(days, selected.value.day, k) ==> r == Some(days[k])
    ensures selected.Some? && NoRecordFor(days, selected.value.day) ==> r == selected
  {
    match selected
    case None => None
    case Some(s) =>
      match FindDay(days, s.day)
      case Some(updated) => Some(updated)
      case None => selected
  }

  /** Re-running the effect on its own result changes nothing: the effect settles after one step. */
  lemma ResyncSettles(selected: Option<DayData>, days: seq<DayData>)
    ensures ResyncSelection(ResyncSelection(selected, days), days) == ResyncSelection(selected, days)
  {
    if selected.Some? {
      var k := FindIndex(days, selected.value.day);
    }
  }

  /**
   * After a toggle of the open day, the re-synchronised open day shows the
   * negated flag, so the detail view's buttons follow the data.
   */
  lemma ResyncAfterToggle(s: DayData, days: seq<DayData>, t: Task)
    requires UniqueDays(days)
    requires !NoRecordFor(days, s.day)
    ensures var r := ResyncSelection(Some(s), ApplyToggle(days, s.day, t));
      r.Some? && exists k :: IsFirstWithDay(days, s.day, k) && r.value.tasks.Get(t) == !days[k].tasks.Get(t)
  {
    var k := FindIndex(days, s.day).value;
    var next := ApplyToggle(days, s.day, t);
    ToggleFlipsExactlyThatFlag(days, s.day, t);
    assert IsFirstWithDay(next, s.day, k);
  }
}
