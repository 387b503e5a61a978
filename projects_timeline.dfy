/**
 * The timeline of all projects: one bar per project, with a fixed 50% fill
 * that is a placeholder in the application (it is not derived from the
 * project's tasks).
 */
module ProjectsTimeline {
  import opened Wrappers
  import opened Text
  import opened Tasks
  import opened Gantt
  import TimelineView

  const ProjectIdPrefix := "Project-"

  /** The placeholder fill of every project bar. */
  const PlaceholderProgress := 50

  /** One project's bar. */
  function Bar(p: Project): (b: GanttBar)
    ensures b.start == p.startDate && b.end == p.endDate && b.name == p.name
    ensures b.id == ProjectIdPrefix + IntToDecimal(p.id)
    ensures b.kind == ProjectBar && b.progress == 50 && !b.isDisabled
  {
    GanttBar(p.startDate, p.endDate, p.name, ProjectIdPrefix + IntToDecimal(p.id), ProjectBar,
             PlaceholderProgress, false, None, None, None)
  }

  /** `ganttTasks` of the projects timeline: one bar per project, same order. */
  function Bars(projects: Option<seq<Project>>): (bars: seq<GanttBar>)
    ensures projects.None? ==> bars == []
    ensures projects.Some? ==> |bars| == |projects.value|
    ensures projects.Some? ==> forall k :: 0 <= k < |bars| ==> bars[k] == Bar(projects.value[k])
  {
    var ps := projects.GetOr([]);
    seq(|ps|, k requires 0 <= k < |ps| => Bar(ps[k]))
  }

  /** The fill is the same for every project, whatever its dates or tasks. */
  lemma ProgressIsConstant(p: Project, q: Project)
    ensures Bar(p).progress == Bar(q).progress == 50
  {
  }

  /** Projects with different ids get bars with different ids. */
  lemma BarIdsDistinct(p: Project, q: Project)
    requires p.id != q.id
    ensures Bar(p).id != Bar(q).id
  {
    var a, b := Bar(p).id, Bar(q).id;
    if a == b {
      assert a[|ProjectIdPrefix|..] == IntToDecimal(p.id);
      assert b[|ProjectIdPrefix|..] == IntToDecimal(q.id);
      DecimalInjective(p.id, q.id);
    }
  }

  /** A project bar's id never equals a task bar's id, even when the numbers coincide. */
  lemma ProjectAndTaskIdsDisjoint(p: Project, t: Task, isDarkMode: bool)
    ensures Bar(p).id != TimelineView.Bar(t, isDarkMode).id
  {
    var a, b := Bar(p).id, TimelineView.Bar(t, isDarkMode).id;
    assert a[0] == 'P';
    assert b[0] == '-' || '0' <= b[0] <= '9';
  }
}
