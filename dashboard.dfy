/**
 * The dashboard's local progress list: its 33-day initial value, the task
 * toggle, the per-day and overall progress figures, and what the task
 * buttons display.
 */
module Dashboard {

  import opened Wrappers
  import opened Tasks

  /** The length of the programme. */
  const ProgramDays: nat := 33

  /** One day of the dashboard's `progress` state. */
  datatype DayProgress = DayProgress(day: int, flags: TaskFlags)

  /**
   * The initial list `Array.from({ length: 33 }, (_, i) => ...)`: one record
   * per programme day, in increasing day order; looking up any day 1..33
   * finds a record with no task done, and the list shows no progress at all.
   */
  function InitialProgress(): (r: seq<DayProgress>)
    ensures |r| == ProgramDays
    ensures forall i, j :: 0 <= i < j < |r| ==> r[i].day < r[j].day
    ensures forall d :: 1 <= d <= ProgramDays ==> FindProgress(r, d) == Some(DayProgress(d, NoTasks))
    ensures NoneDone(r) && TotalProgress(r) == 0
  {
    var r := seq(ProgramDays, i => DayProgress(i + 1, NoTasks));
    assert forall d :: 1 <= d <= ProgramDays ==> FindProgress(r, d) == Some(DayProgress(d, NoTasks)) by {
      forall d | 1 <= d <= ProgramDays ensures FindProgress(r, d) == Some(DayProgress(d, NoTasks)) {
        assert IsFirstProgress(r, d, d - 1);
        FindProgressFindsFirst(r, d, d - 1);
      }
    }
    r
  }

  /** The callback of `prev.map`: `{ ...p, [task]: !p[task] }` on a matching day. */
  function ToggleRecord(p: DayProgress, day: int, t: Task): DayProgress {
    if p.day == day then p.(flags := p.flags.Set(t, !p.flags.Get(t))) else p
  }

  /**
   * `toggleTask(day, task)`: the list keeps its length and day order; on
   * every record of that day only `task` is negated; every other record is
   * unchanged.
   */
  function ToggleTask(progress: seq<DayProgress>, day: int, t: Task): (r: seq<DayProgress>)
    ensures |r| == |progress|
    ensures forall i :: 0 <= i < |progress| ==> r[i].day == progress[i].day
    ensures forall i :: 0 <= i < |progress| && progress[i].day == day ==>
      && r[i].flags.Get(t) == !progress[i].flags.Get(t)
      && forall u :: u != t ==> r[i].flags.Get(u) == progress[i].flags.Get(u)
    ensures forall i :: 0 <= i < |progress| && progress[i].day != day ==> r[i] == progress[i]
  {
    if progress == [] then []
    else [ToggleRecord(progress[0], day, t)] + ToggleTask(progress[1..], day, t)
  }

  /** Toggling the same task of the same day twice restores the list. */
  lemma ToggleTaskInvolution(progress: seq<DayProgress>, day: int, t: Task)
    ensures ToggleTask(ToggleTask(progress, day, t), day, t) == progress
  {
    var once := ToggleTask(progress, day, t);
    var twice := ToggleTask(once, day, t);
    forall i | 0 <= i < |progress| ensures twice[i] == progress[i] {
      if progress[i].day == day {
        forall u: Task ensures twice[i].flags.Get(u) == progress[i].flags.Get(u) {
          if u != t {
            assert once[i].flags.Get(u) == progress[i].flags.Get(u);
          }
        }
        FlagsExtensional(twice[i].flags, progress[i].flags);
      }
    }
  }

  /** `getDayProgress`: how many of the day's three tasks are done. */
  function GetDayProgress(p: DayProgress): (n: nat)
    ensures n <= 3
    ensures n == 0 <==> p.flags.IsNone()
    ensures n == 3 <==> p.flags.IsAll()
  {
    p.flags.Count()
  }

  /** Every task of every day is done. */
  predicate AllDone(progress: seq<DayProgress>) {
    forall i :: 0 <= i < |progress| ==> progress[i].flags.IsAll()
  }

  /** No task of any day is done. */
  predicate NoneDone(progress: seq<DayProgress>) {
    forall i :: 0 <= i < |progress| ==> progress[i].flags.IsNone()
  }

  /**
   * `totalProgress = progress.reduce((sum, day) => sum + getDayProgress(day), 0)`:
   * at most three per day, the maximum exactly when every task is done and
   * zero exactly when none is.
   */
  function TotalProgress(progress: seq<DayProgress>): (n: nat)
    ensures n <= 3 * |progress|
    ensures n == 3 * |progress| <==> AllDone(progress)
    ensures n == 0 <==> NoneDone(progress)
  {
    if progress == [] then 0
    else GetDayProgress(progress[0]) + TotalProgress(progress[1..])
  }

  /** `maxProgress = progress.length * 3`: a bound on the total, reached exactly when every task is done. */
  function MaxProgress(progress: seq<DayProgress>): (n: nat)
    ensures TotalProgress(progress) <= n
    ensures TotalProgress(progress) == n <==> AllDone(progress)
  {
    |progress| * 3
  }

  /**
   * `Math.round(num / den)` for non-negative operands, in exact arithmetic:
   * the integer nearest to `num / den`, halves rounded up.
   */
  function RoundHalfUp(num: nat, den: nat): (r: nat)
    requires den > 0
    ensures 2 * den * r <= 2 * num + den < 2 * den * (r + 1)
  {
    var r := (2 * num + den) / (2 * den);
    assert (2 * den) * r <= 2 * num + den < (2 * den) * (r + 1);
    r
  }

  /**
   * `overallProgressPercentage = Math.round((totalProgress / maxProgress) * 100)`.
   * The empty list would divide zero by zero, so the list must be non-empty.
   */
  function OverallProgressPercentage(progress: seq<DayProgress>): (pct: nat)
    requires |progress| > 0
    ensures pct <= 100
  {
    var t, m := TotalProgress(progress), MaxProgress(progress);
    var pct := RoundHalfUp(100 * t, m);
    BoundedByScale(2 * m, pct, 200 * t + m, 101);
    pct
  }

  /** From `d * x <= y < d * b` follows `x < b`. */
  lemma BoundedByScale(d: nat, x: nat, y: int, b: nat)
    requires d > 0 && d * x <= y && y < d * b
    ensures x < b
  {
    if x >= b {
      assert d * x >= d * b by { MulMonotone(d, b, x); }
    }
  }

  lemma MulMonotone(d: nat, a: nat, b: nat)
    requires a <= b
    ensures d * a <= d * b
  {
  }

  /** A positive multiple of `m` compared with a bound scaled by `m`. */
  lemma ScaledBelow(m: nat, a: int, b: int)
    requires m > 0 && m * a < m * b
    ensures a < b
  {
  }

  /**
   * For lists of up to 66 days (the programme has 33) the percentage is 100
   * exactly when every task is done and 0 exactly when none is. From 67
   * days on, a single missing or done task rounds away.
   */
  lemma PercentageExtremes(progress: seq<DayProgress>)
    requires 0 < |progress| <= 66
    ensures OverallProgressPercentage(progress) == 100 <==> AllDone(progress)
    ensures OverallProgressPercentage(progress) == 0 <==> NoneDone(progress)
  {
    var t, m := TotalProgress(progress), MaxProgress(progress);
    var pct := OverallProgressPercentage(progress);
    assert 2 * m * pct <= 200 * t + m < 2 * m * (pct + 1);
    if t == m {
      assert 2 * m * pct <= 2 * m * 101 by { assert 201 * m < 202 * m; }
      ScaledBelow(2 * m, pct, 101);
      ScaledBelow(2 * m, 99, pct + 1);
    } else {
      assert t <= m - 1;
      assert 200 * t + m < 200 * m;
      ScaledBelow(2 * m, pct, 100);
    }
    if t == 0 {
      ScaledBelow(2 * m, pct, 1);
    } else {
      assert 200 * t + m >= 2 * m;
      ScaledBelow(2 * m, 0, pct + 1);
    }
  }

  /** The initial list shows a progress percentage of 0. */
  lemma InitialProgressIsBlank()
    ensures OverallProgressPercentage(InitialProgress()) == 0
  {
    PercentageExtremes(InitialProgress());
  }

  /** The number of records of day `day` whose flag `t` is `v`. */
  function MatchCount(progress: seq<DayProgress>, day: int, t: Task, v: bool): nat {
    if progress == [] then 0
    else
      (if progress[0].day == day && progress[0].flags.Get(t) == v then 1 else 0)
      + MatchCount(progress[1..], day, t, v)
  }

  /**
   * A toggle moves the total by one for every record of that day: up for
   * each record whose flag was clear, down for each one whose flag was set.
   */
  lemma {:induction false} ToggleMovesTotal(progress: seq<DayProgress>, day: int, t: Task)
    ensures TotalProgress(ToggleTask(progress, day, t)) + MatchCount(progress, day, t, true)
      == TotalProgress(progress) + MatchCount(progress, day, t, false)
  {
    if progress != [] {
      var r := ToggleTask(progress, day, t);
      assert r[1..] == ToggleTask(progress[1..], day, t);
      ToggleMovesTotal(progress[1..], day, t);
      var p := progress[0];
      CountAfterSet(p.flags, t, !p.flags.Get(t));
    }
  }

  /** The day whose content the dashboard shows, with the task flags that came with it. */
  datatype DailyContent = DailyContent(day: int, tasks: TaskFlags)

  /** The part of the dashboard's state the task buttons touch. */
  datatype DashboardView = DashboardView(progress: seq<DayProgress>, content: DailyContent)

  /**
   * A click on the meditation, video or rosary button:
   * `toggleTask(dailyContent.day, task)`. Only `progress` changes; the
   * daily content, and with it every flag the buttons display, stays as it was.
   */
  function ClickTaskButton(s: DashboardView, t: Task): (r: DashboardView)
    ensures r.content == s.content
    ensures |r.progress| == |s.progress|
    ensures forall i :: 0 <= i < |s.progress| && s.progress[i].day == s.content.day ==>
      r.progress[i].flags.Get(t) == !s.progress[i].flags.Get(t)
  {
    s.(progress := ToggleTask(s.progress, s.content.day, t))
  }

  /** What a task button shows as written: "Completada" or "Pendiente" from `dailyContent.tasks`. */
  function ButtonShowsDone(s: DashboardView, t: Task): bool {
    s.content.tasks.Get(t)
  }

  /** As written, no click ever changes what any task button shows. */
  lemma ButtonIgnoresClicks(s: DashboardView, t: Task, u: Task)
    ensures ButtonShowsDone(ClickTaskButton(s, t), u) == ButtonShowsDone(s, u)
  {
  }

  /**
   * A concrete case: on the fresh dashboard, one click on "meditation" marks
   * day 1's meditation done in `progress`, and the button still reads "Pendiente".
   */
  lemma ButtonIgnoresClicksExample()
    ensures var s := DashboardView(InitialProgress(), DailyContent(1, NoTasks));
      var s' := ClickTaskButton(s, Meditation);
      ButtonShowsDoneFromProgress(s', Meditation) && !ButtonShowsDone(s', Meditation)
  {
    var s := DashboardView(InitialProgress(), DailyContent(1, NoTasks));
    assert FindProgress(s.progress, 1) == Some(DayProgress(1, NoTasks));
    assert s.progress[0].day == 1;
    ButtonFromProgressFollowsClicks(s, Meditation);
  }

  /** `i` is the index of the first record of day `day`. */
  predicate IsFirstProgress(progress: seq<DayProgress>, day: int, i: int) {
    0 <= i < |progress| && progress[i].day == day && forall j :: 0 <= j < i ==> progress[j].day != day
  }

  /** The first record of day `day` in `progress`, if any. */
  function FindProgress(progress: seq<DayProgress>, day: int): (r: Option<DayProgress>)
    ensures r.None? <==> forall i :: 0 <= i < |progress| ==> progress[i].day != day
    ensures r.Some? ==> exists i :: IsFirstProgress(progress, day, i) && progress[i] == r.value
  {
    if progress == [] then None
    else if progress[0].day == day then Some(progress[0])
    else match FindProgress(progress[1..], day)
      case None => None
      case Some(p) =>
        ghost var i :| IsFirstProgress(progress[1..], day, i) && progress[1..][i] == p;
        assert IsFirstProgress(progress, day, i + 1);
        Some(p)
  }

  /** The record `FindProgress` returns is the one at the first index of that day. */
  lemma FindProgressFindsFirst(progress: seq<DayProgress>, day: int, i: int)
    requires IsFirstProgress(progress, day, i)
    ensures FindProgress(progress, day) == Some(progress[i])
  {
    var p := FindProgress(progress, day).value;
    var k :| IsFirstProgress(progress, day, k) && progress[k] == p;
    assert k == i;
  }

  /**
   * What a task button evidently should show: the flag of the displayed day
   * in the `progress` list the button toggles (falling back to the daily
   * content when that day has no record).
   */
  function ButtonShowsDoneFromProgress(s: DashboardView, t: Task): bool {
    match FindProgress(s.progress, s.content.day)
    case Some(p) => p.flags.Get(t)
    case None => s.content.tasks.Get(t)
  }

  /** Read from `progress`, a click on a task button flips what that button shows. */
  lemma {:induction false} ButtonFromProgressFollowsClicks(s: DashboardView, t: Task)
    requires exists i :: 0 <= i < |s.progress| && s.progress[i].day == s.content.day
    ensures ButtonShowsDoneFromProgress(ClickTaskButton(s, t), t) == !ButtonShowsDoneFromProgress(s, t)
  {
    var p := FindProgress(s.progress, s.content.day).value;
    var i :| IsFirstProgress(s.progress, s.content.day, i) && s.progress[i] == p;
    var r := ClickTaskButton(s, t);
    var q := FindProgress(r.progress, s.content.day).value;
    var k :| IsFirstProgress(r.progress, s.content.day, k) && r.progress[k] == q;
    assert IsFirstProgress(r.progress, s.content.day, i);
    assert k == i;
  }
}
