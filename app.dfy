/**
 * The calendar page's list of day records and `handleTaskUpdate`, which
 * sets one task flag of one day by mapping over the list.
 */
module App {

  import opened Tasks

  /** One day of the calendar as the page receives it. */
  datatype DayData = DayData(day: int, title: string, completed: bool, tasks: TaskFlags, isAvailable: bool)

  /**
   * `next` is `prev` with task `t` set to `v` and nothing else changed: the
   * day number, the title, the `completed` and `isAvailable` fields and the
   * other two task flags are kept.
   */
  predicate OnlyTaskSet(prev: DayData, next: DayData, t: Task, v: bool) {
    && next.day == prev.day && next.title == prev.title
    && next.completed == prev.completed && next.isAvailable == prev.isAvailable
    && next.tasks.Get(t) == v
    && forall u :: u != t ==> next.tasks.Get(u) == prev.tasks.Get(u)
  }

  /** The callback of `prev.map`: `{ ...d, tasks: { ...d.tasks, [t]: v } }` on a matching day. */
  function UpdateRecord(d: DayData, day: int, t: Task, v: bool): DayData {
    if d.day == day then d.(tasks := d.tasks.Set(t, v)) else d
  }

  /**
   * `handleTaskUpdate(day, task, completed)`: the list keeps its length and
   * order; every record of that day has only `task` set to `completed`;
   * every other record is returned unchanged.
   */
  function HandleTaskUpdate(days: seq<DayData>, day: int, t: Task, v: bool): (r: seq<DayData>)
    ensures |r| == |days|
    ensures forall i :: 0 <= i < |days| ==> r[i].day == days[i].day
    ensures forall i :: 0 <= i < |days| && days[i].day == day ==> OnlyTaskSet(days[i], r[i], t, v)
    ensures forall i :: 0 <= i < |days| && days[i].day != day ==> r[i] == days[i]
  {
    if days == [] then []
    else [UpdateRecord(days[0], day, t, v)] + HandleTaskUpdate(days[1..], day, t, v)
  }

  /** Two records agree when `OnlyTaskSet` says they differ at most in flag `t`, which they share. */
  lemma OnlyTaskSetDetermines(prev: DayData, a: DayData, b: DayData, t: Task, v: bool)
    requires OnlyTaskSet(prev, a, t, v) && OnlyTaskSet(prev, b, t, v)
    ensures a == b
  {
    forall u: Task ensures a.tasks.Get(u) == b.tasks.Get(u) {
      if u != t {
        assert a.tasks.Get(u) == prev.tasks.Get(u);
      }
    }
    FlagsExtensional(a.tasks, b.tasks);
  }

  /** Applying the same update twice gives the same list as applying it once. */
  lemma HandleTaskUpdateIdempotent(days: seq<DayData>, day: int, t: Task, v: bool)
    ensures HandleTaskUpdate(HandleTaskUpdate(days, day, t, v), day, t, v) == HandleTaskUpdate(days, day, t, v)
  {
    var once := HandleTaskUpdate(days, day, t, v);
    var twice := HandleTaskUpdate(once, day, t, v);
    forall i | 0 <= i < |days| ensures twice[i] == once[i] {
      if days[i].day == day {
        assert OnlyTaskSet(once[i], twice[i], t, v);
        assert OnlyTaskSet(once[i], once[i], t, v);
        OnlyTaskSetDetermines(once[i], twice[i], once[i], t, v);
      }
    }
  }

  /** When no record has the given day, the list is unchanged. */
  lemma HandleTaskUpdateNoMatch(days: seq<DayData>, day: int, t: Task, v: bool)
    requires forall i :: 0 <= i < |days| ==> days[i].day != day
    ensures HandleTaskUpdate(days, day, t, v) == days
  {
  }
}
