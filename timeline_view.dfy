/**
 * The project's task timeline: every fetched task becomes one Gantt bar, in
 * order, coloured by priority and filled by its points.
 */
module TimelineView {
  import opened Wrappers
  import opened Text
  import opened Tasks
  import opened Gantt

  /** `getTaskColor`: one colour per known priority and mode, grey otherwise. */
  function TaskColor(priority: Option<string>, isDarkMode: bool): string {
    match priority
    case Some("Urgent") => if isDarkMode then "#ef4444" else "#f87171"
    case Some("High") => if isDarkMode then "#f59e0b" else "#fbbf24"
    case Some("Medium") => if isDarkMode then "#10b981" else "#34d399"
    case Some("Low") => if isDarkMode then "#3b82f6" else "#60a5fa"
    case _ => if isDarkMode then "#6b7280" else "#9ca3af"
  }

  /** `getSelectedTaskColor`: the darker shade of the same scheme. */
  function SelectedTaskColor(priority: Option<string>, isDarkMode: bool): string {
    match priority
    case Some("Urgent") => if isDarkMode then "#dc2626" else "#ef4444"
    case Some("High") => if isDarkMode then "#d97706" else "#f59e0b"
    case Some("Medium") => if isDarkMode then "#059669" else "#10b981"
    case Some("Low") => if isDarkMode then "#2563eb" else "#3b82f6"
    case _ => if isDarkMode then "#4b5563" else "#6b7280"
  }

  /** `getProgressColor`: the priority argument is ignored. */
  function ProgressColor(priority: Option<string>, isDarkMode: bool): string {
    if isDarkMode then "#ffffff" else "#000000"
  }

  /** `getSelectedProgressColor`: the priority argument is ignored. */
  function SelectedProgressColor(priority: Option<string>, isDarkMode: bool): string {
    if isDarkMode then "#ffffff" else "#000000"
  }

  const KnownPriorities: seq<string> := [Urgent, High, Medium, Low]

  /** An absent or unrecognised priority gets the default colours (Backlog included). */
  lemma ColorFallback(priority: Option<string>, isDarkMode: bool)
    requires priority.None? || priority.value !in KnownPriorities
    ensures TaskColor(priority, isDarkMode) == (if isDarkMode then "#6b7280" else "#9ca3af")
    ensures SelectedTaskColor(priority, isDarkMode) == (if isDarkMode then "#4b5563" else "#6b7280")
  {
  }

  /** In either mode the four known priorities and the default get five different colours. */
  lemma ColorsDistinguishPriorities(p: Option<string>, q: Option<string>, isDarkMode: bool)
    requires p != q
    requires p.Some? && p.value in KnownPriorities
    ensures TaskColor(p, isDarkMode) != TaskColor(q, isDarkMode)
    ensures SelectedTaskColor(p, isDarkMode) != SelectedTaskColor(q, isDarkMode)
  {
  }

  /** Both progress colours depend on the mode only, never on the priority. */
  lemma ProgressColorsIgnorePriority(p: Option<string>, q: Option<string>, isDarkMode: bool)
    ensures ProgressColor(p, isDarkMode) == ProgressColor(q, isDarkMode)
    ensures SelectedProgressColor(p, isDarkMode) == SelectedProgressColor(q, isDarkMode)
    ensures ProgressColor(p, true) != ProgressColor(p, false)
  {
  }

  /**
   * The bar's fill: nothing for absent or zero points, otherwise ten percent
   * per point, clamped to [0, 100].
   */
  function PointsProgress(points: Option<int>): (r: int)
    ensures 0 <= r <= 100
    ensures points.None? || points.value <= 0 ==> r == 0
    ensures points.Some? && 0 <= points.value <= 10 ==> r == 10 * points.value
    ensures points.Some? && points.value >= 10 ==> r == 100
  {
    if points.None? || points.value == 0 then 0
    else
      var scaled := points.value * 10;
      var clampedBelow := if scaled > 0 then scaled else 0;
      if clampedBelow < 100 then clampedBelow else 100
  }

  lemma PointsProgressExamples()
    ensures PointsProgress(Some(5)) == 50 && PointsProgress(Some(12)) == 100
    ensures PointsProgress(Some(-3)) == 0 && PointsProgress(None) == 0
  {
  }

  /** One task's bar. */
  function Bar(t: Task, isDarkMode: bool): (b: GanttBar)
    ensures b.start == t.startDate && b.end == t.dueDate
    ensures b.name == t.title && b.id == IntToDecimal(t.id)
    ensures b.kind == TaskBar && !b.isDisabled
    ensures b.progress == PointsProgress(t.points) && 0 <= b.progress <= 100
    ensures b.styles == Some(BarStyles(TaskColor(t.priority, isDarkMode), SelectedTaskColor(t.priority, isDarkMode),
                                       ProgressColor(t.priority, isDarkMode), SelectedProgressColor(t.priority, isDarkMode)))
    ensures b.description.Some? <==> Truthy(t.description)
    ensures b.description.Some? ==> b.description == t.description
    ensures b.status.Some? <==> Truthy(t.status)
    ensures b.status.Some? ==> b.status == t.status
  {
    GanttBar(
      t.startDate, t.dueDate, t.title, IntToDecimal(t.id), TaskBar, PointsProgress(t.points), false,
      Some(BarStyles(TaskColor(t.priority, isDarkMode), SelectedTaskColor(t.priority, isDarkMode),
                     ProgressColor(t.priority, isDarkMode), SelectedProgressColor(t.priority, isDarkMode))),
      if Truthy(t.description) then t.description else None,
      if Truthy(t.status) then t.status else None)
  }

  /** `ganttTasks`: one bar per task, same order; no tasks gives no bars. No task is left out. */
  function Bars(tasks: Option<seq<Task>>, isDarkMode: bool): (bars: seq<GanttBar>)
    ensures tasks.None? ==> bars == []
    ensures |bars| == |OrEmpty(tasks)|
    ensures forall k :: 0 <= k < |bars| ==> bars[k] == Bar(OrEmpty(tasks)[k], isDarkMode)
  {
    var ts := OrEmpty(tasks);
    seq(|ts|, k requires 0 <= k < |ts| => Bar(ts[k], isDarkMode))
  }

  /** A bar's id reads back as its task's id. */
  lemma BarIdRoundTrip(t: Task, isDarkMode: bool)
    ensures var id := Bar(t, isDarkMode).id;
            (id[0] == '-' ==> IsDigits(id[1..])) && (id[0] != '-' ==> IsDigits(id))
            && ParseDecimal(id) == t.id
  {
    DecimalRoundTrip(t.id);
  }

  /** Tasks with different ids get bars with different ids. */
  lemma BarIdsDistinct(tasks: seq<Task>, isDarkMode: bool, i: nat, j: nat)
    requires i < |tasks| && j < |tasks| && tasks[i].id != tasks[j].id
    ensures Bars(Some(tasks), isDarkMode)[i].id != Bars(Some(tasks), isDarkMode)[j].id
  {
    if IntToDecimal(tasks[i].id) == IntToDecimal(tasks[j].id) {
      DecimalInjective(tasks[i].id, tasks[j].id);
    }
  }
}
