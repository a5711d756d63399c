// The two daily commands that mark overdue work: every pending, unfinished
// treatment (or task) scheduled between three days ago and yesterday gets its
// status recomputed and saved; the command reports how many it selected.
// Both commands run the same rule over their own table; `today` is a parameter.

module DelayedStatus {
  import opened Common
  import opened FarmModels

  /** How many days back the window reaches, so that a missed daily run is caught up. */
  const WindowDays := 3

  /** A treatment or task row: its scheduling data and the stored `status` column. */
  datatype Scheduled = Scheduled(task: Task, status: string)

  /** The command's filter: pending, no finish date, dated from `today - 3` through `today - 1`. */
  predicate InWindow(today: int, r: Scheduled)
  {
    r.status == StatusPending && r.task.finishDate.None? &&
    today - WindowDays <= r.task.date && r.task.date <= today - 1
  }

  function WindowOf(today: int): Scheduled -> bool
  {
    r => InWindow(today, r)
  }

  /**
   * The row after the command: a selected row has `update_status()` applied,
   * which stores the status the scheduling data gives today; that is
   * "delayed", since the row is unfinished and dated before today. Only the
   * status column is written.
   */
  function Marked(today: int, r: Scheduled): (m: Scheduled)
    ensures m.task == r.task
    ensures !InWindow(today, r) ==> m == r
    ensures InWindow(today, r) ==> m.status == StatusDelayed
  {
    if InWindow(today, r) then r.(status := Status(r.task, today)) else r
  }

  function MarkedRows(s: seq<Scheduled>, today: int): (r: seq<Scheduled>)
    ensures |r| == |s|
    ensures forall i :: 0 <= i < |s| ==> r[i] == Marked(today, s[i])
  {
    seq(|s|, i requires 0 <= i < |s| => Marked(today, s[i]))
  }

  /** Rows dated today or later, or more than three days back, are never selected. */
  lemma {:induction false} OutsideWindowUntouched(today: int, r: Scheduled)
    requires r.task.date >= today || r.task.date < today - WindowDays
    ensures Marked(today, r) == r
  {
  }

  /** After a run nothing is left in the window: running again the same day selects nothing. */
  lemma {:induction false} RerunSelectsNothing(s: seq<Scheduled>, today: int)
    ensures CountIf(MarkedRows(s, today), WindowOf(today)) == 0
  {
    FilterNone(MarkedRows(s, today), WindowOf(today));
  }

  /** The treatments (or tasks) table. */
  class ScheduleTable {
    var rows: seq<Scheduled>

    constructor (rows: seq<Scheduled>)
      ensures this.rows == rows
    {
      this.rows := rows;
    }

    /** Command.handle of update_delayed_treatments and update_delayed_tasks: the reported count. */
    method UpdateDelayed(today: int) returns (count: nat)
      modifies this
      ensures count == CountIf(old(rows), WindowOf(today))
      ensures rows == MarkedRows(old(rows), today)
    {
      count := |Filter(rows, WindowOf(today))|;
      MarkSelected(today);
    }

    /** The loop: `update_status()` and `save(update_fields=['status'])` on each selected row. */
    method MarkSelected(today: int)
      modifies this
      ensures rows == MarkedRows(old(rows), today)
    {
      ghost var before := rows;
      var i := 0;
      while i < |rows|
        invariant 0 <= i <= |rows| == |before|
        invariant forall j :: 0 <= j < i ==> rows[j] == Marked(today, before[j])
        invariant forall j :: i <= j < |rows| ==> rows[j] == before[j]
      {
        var r := rows[i];
        if r.status == StatusPending && r.task.finishDate.None? &&
           today - WindowDays <= r.task.date && r.task.date <= today - 1 {
          rows := rows[i := r.(status := Status(r.task, today))];
        }
        i := i + 1;
      }
    }
  }
}
