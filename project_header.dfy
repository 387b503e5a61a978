/**
 * The project header: the progress percentage of a project's date range, the
 * task statistics, which blocks the header shows, and the active tab.
 * The current instant `now` is a parameter instead of a clock read.
 */
module ProjectHeader {
  import opened Wrappers
  import opened Tasks

  /**
   * `Math.round(n / d)` for a non-negative quotient, in exact arithmetic:
   * the nearest integer, halves rounded up.
   */
  function RoundHalfUp(n: int, d: int): (r: int)
    requires d > 0
    ensures 2 * d * r - d <= 2 * n < 2 * d * r + d
  {
    var q := (2 * n + d) / (2 * d);
    assert 2 * d * q <= 2 * n + d < 2 * d * q + 2 * d by {
      var r := (2 * n + d) % (2 * d);
      assert 2 * n + d == 2 * d * q + r && 0 <= r < 2 * d;
    }
    q
  }

  /** Bounds of the rounded ratio on the middle branch. */
  lemma RatioBounds(elapsed: int, total: int, r: int)
    requires 0 < elapsed < total
    requires 2 * total * r - total <= 200 * elapsed < 2 * total * r + total
    ensures 0 <= r <= 100
  {
  }

  /**
   * `calculateProgress(start, end)`: 0 without both dates, 100 from the end on
   * (tested first), 0 up to the start, otherwise the elapsed share in percent,
   * rounded half up.
   */
  function CalculateProgress(start: Option<int>, end: Option<int>, now: int): (r: int)
    ensures 0 <= r <= 100
    ensures start.None? || end.None? ==> r == 0
    ensures start.Some? && end.Some? && now >= end.value ==> r == 100
    ensures start.Some? && end.Some? && now < end.value && now <= start.value ==> r == 0
    ensures start.Some? && end.Some? && start.value < now < end.value ==>
      var total, elapsed := end.value - start.value, now - start.value;
      2 * total * r - total <= 200 * elapsed < 2 * total * r + total
  {
    if start.None? || end.None? then 0
    else
      var s, e := start.value, end.value;
      if now >= e then 100
      else if now <= s then 0
      else
        var r := RoundHalfUp(100 * (now - s), e - s);
        RatioBounds(now - s, e - s, r);
        r
  }

  /** Halfway through a ten-unit range the progress is 50; at the ends it is 0 and 100. */
  lemma ProgressExamples()
    ensures CalculateProgress(Some(0), Some(10), 5) == 50
    ensures CalculateProgress(Some(0), Some(10), 0) == 0
    ensures CalculateProgress(Some(0), Some(10), 10) == 100
    ensures CalculateProgress(Some(10), Some(0), 5) == 100
  {
  }

  /** Rounding half up is monotone in the numerator. */
  lemma RoundingMonotone(n1: int, n2: int, d: int, r1: int, r2: int)
    requires d > 0 && n1 <= n2
    requires 2 * d * r1 - d <= 2 * n1 && 2 * n2 < 2 * d * r2 + d
    ensures r1 <= r2
  {
    var k := r1 - r2;
    assert 2 * (d * r1) - 2 * (d * r2) < 2 * d;
    assert d * r1 - d * r2 == d * k;
  }

  /** The progress never decreases as time passes. */
  lemma ProgressMonotone(start: Option<int>, end: Option<int>, now1: int, now2: int)
    requires now1 <= now2
    ensures CalculateProgress(start, end, now1) <= CalculateProgress(start, end, now2)
  {
    if start.Some? && end.Some? && start.value < now1 && now2 < end.value {
      var s, e := start.value, end.value;
      RoundingMonotone(100 * (now1 - s), 100 * (now2 - s), e - s,
        CalculateProgress(start, end, now1), CalculateProgress(start, end, now2));
    }
  }

  /** `taskStats`. */
  datatype TaskStats = TaskStats(total: nat, completed: nat, inProgress: nat, urgent: nat)

  /** The statistics of `project.tasks`, all zero when the list is absent. */
  function Stats(tasks: Option<seq<Task>>): (st: TaskStats)
    ensures st.total == |OrEmpty(tasks)|
    ensures st.completed == multiset(Attributes(OrEmpty(tasks), ByStatus))[Some(Completed)]
    ensures st.inProgress == multiset(Attributes(OrEmpty(tasks), ByStatus))[Some(WorkInProgress)]
    ensures st.urgent == multiset(Attributes(OrEmpty(tasks), ByPriority))[Some(Urgent)]
    ensures st.completed <= st.total && st.inProgress <= st.total && st.urgent <= st.total
    ensures st.completed + st.inProgress <= st.total
  {
    var ts := OrEmpty(tasks);
    HavingCount(ts, ByStatus, Completed);
    HavingCount(ts, ByStatus, WorkInProgress);
    HavingCount(ts, ByPriority, Urgent);
    TwoValuesBounded(ts, ByStatus, Completed, WorkInProgress);
    TaskStats(|ts|, |Having(ts, ByStatus, Completed)|, |Having(ts, ByStatus, WorkInProgress)|, |Having(ts, ByPriority, Urgent)|)
  }

  /** What the information section of the header shows. */
  datatype HeaderInfo = HeaderInfo(
    completedOfTotal: (nat, nat),
    urgent: Option<nat>,
    progress: Option<int>)

  /**
   * The urgent block only when some task is urgent, the progress bar only when
   * both dates are set, always "completed/total".
   */
  function Info(p: Project, now: int): (h: HeaderInfo)
    ensures h.completedOfTotal == (Stats(p.tasks).completed, Stats(p.tasks).total)
    ensures h.urgent.Some? <==> Stats(p.tasks).urgent > 0
    ensures h.urgent.Some? ==> h.urgent.value == Stats(p.tasks).urgent
    ensures h.progress.Some? <==> p.startDate.Some? && p.endDate.Some?
    ensures h.progress.Some? ==> h.progress.value == CalculateProgress(p.startDate, p.endDate, now)
    ensures h.progress.Some? ==> 0 <= h.progress.value <= 100
  {
    var st := Stats(p.tasks);
    HeaderInfo(
      (st.completed, st.total),
      if st.urgent > 0 then Some(st.urgent) else None,
      if p.startDate.Some? && p.endDate.Some? then Some(CalculateProgress(p.startDate, p.endDate, now)) else None)
  }

  /** The urgent block shows exactly when some fetched task has priority "Urgent". */
  lemma UrgentBlockIffUrgentTask(p: Project, now: int)
    ensures Info(p, now).urgent.Some? <==> exists t :: t in OrEmpty(p.tasks) && t.priority == Some(Urgent)
  {
    var ts := OrEmpty(p.tasks);
    var urgent := Having(ts, ByPriority, Urgent);
    HavingCount(ts, ByPriority, Urgent);
    if |urgent| > 0 {
      HavingMembership(ts, ByPriority, Urgent, urgent[0]);
    }
    forall t | t in ts && t.priority == Some(Urgent) ensures |urgent| > 0 {
      HavingMembership(ts, ByPriority, Urgent, t);
    }
  }

  /** The four tabs of the header. */
  const Tabs: seq<string> := ["Board", "List", "Timeline", "Table"]

  /** `TabButton`: a tab is active when the active tab's name is its own. */
  function IsActive(activeTab: string, name: string): bool {
    activeTab == name
  }

  /** Whatever the active tab, at most one of the four tabs is shown active, and exactly one for a tab name. */
  lemma AtMostOneActiveTab(activeTab: string, i: nat, j: nat)
    requires i < 4 && j < 4
    ensures IsActive(activeTab, Tabs[i]) && IsActive(activeTab, Tabs[j]) ==> i == j
    ensures IsActive(activeTab, Tabs[i]) <==> activeTab == Tabs[i]
  {
  }
}
