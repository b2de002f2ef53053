/**
 * The three devotional tasks of one day of the 33-day programme and their
 * completion flags. Both day records of the application (the calendar's
 * `DayData.tasks` and the dashboard's `DayProgress`) hold these three flags.
 */
module Tasks {

  /** The task names (`meditationCompleted`, `videoCompleted`, `rosaryCompleted`). */
  datatype Task = Meditation | Video | Rosary

  /** The three completion flags of one day. */
  datatype TaskFlags = TaskFlags(meditation: bool, video: bool, rosary: bool) {

    /** The flag of task `t` (the source's `tasks[task]`). */
    function Get(t: Task): bool {
      match t
      case Meditation => meditation
      case Video => video
      case Rosary => rosary
    }

    /** The object spread `{ ...tasks, [t]: v }`: only flag `t` becomes `v`. */
    function Set(t: Task, v: bool): (r: TaskFlags)
      ensures r.Get(t) == v
      ensures forall u :: u != t ==> r.Get(u) == Get(u)
    {
      match t
      case Meditation => this.(meditation := v)
      case Video => this.(video := v)
      case Rosary => this.(rosary := v)
    }

    /** How many of the three flags are set: `[m, v, r].filter(Boolean).length`. */
    function Count(): (n: nat)
      ensures n <= 3
      ensures n == 0 <==> IsNone()
      ensures n == 3 <==> IsAll()
    {
      (if meditation then 1 else 0) + (if video then 1 else 0) + (if rosary then 1 else 0)
    }

    /** All three tasks are done. */
    predicate IsAll() {
      meditation && video && rosary
    }

    /** No task is done. */
    predicate IsNone() {
      !meditation && !video && !rosary
    }
  }

  /** A day with no task done. */
  const NoTasks: TaskFlags := TaskFlags(false, false, false)

  /** The number of `true` entries of `bs`: `bs.filter(Boolean).length`. */
  function CountTrue(bs: seq<bool>): (n: nat)
    ensures n <= |bs|
    ensures n == 0 <==> forall i :: 0 <= i < |bs| ==> !bs[i]
    ensures n == |bs| <==> forall i :: 0 <= i < |bs| ==> bs[i]
  {
    if bs == [] then 0 else (if bs[0] then 1 else 0) + CountTrue(bs[1..])
  }

  /** Two flag records are equal exactly when they agree on every task. */
  lemma FlagsExtensional(a: TaskFlags, b: TaskFlags)
    requires forall t: Task :: a.Get(t) == b.Get(t)
    ensures a == b
  {
    assert a.meditation == b.meditation by { assert a.Get(Meditation) == b.Get(Meditation); }
    assert a.video == b.video by { assert a.Get(Video) == b.Get(Video); }
    assert a.rosary == b.rosary by { assert a.Get(Rosary) == b.Get(Rosary); }
  }

  /** `Count` is the source's `filter(Boolean).length` over the three flags. */
  lemma CountIsFilterLength(f: TaskFlags)
    ensures f.Count() == CountTrue([f.meditation, f.video, f.rosary])
  {
    var bs := [f.meditation, f.video, f.rosary];
    assert bs[1..] == [f.video, f.rosary];
    assert bs[1..][1..] == [f.rosary];
    assert bs[1..][1..][1..] == [];
  }

  /** Setting a flag changes the count by exactly the change of that flag. */
  lemma CountAfterSet(f: TaskFlags, t: Task, v: bool)
    ensures f.Set(t, v).Count() + (if f.Get(t) then 1 else 0) == f.Count() + (if v then 1 else 0)
  {
    match t
    case Meditation =>
    case Video =>
    case Rosary =>
  }
}
