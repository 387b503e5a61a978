/**
 * The kanban board: four fixed status lanes, each the stable filter of the
 * fetched task list by its status, and the drop handler that issues one
 * status update per drop. Lanes are a function of the fetched list alone;
 * a drop only adds to the log of issued updates and never edits a lane.
 */
module Board {
  import opened Wrappers
  import opened Tasks

  /** The lanes, in display order. */
  const TaskStatus: seq<string> := [ToDo, WorkInProgress, UnderReview, Completed]

  /** One column of the board: its status, the tasks it shows and the count in its header. */
  datatype Lane = Lane(status: string, tasks: seq<Task>, count: nat)

  /** `TaskColumn`: the tasks of one status and their number. */
  function Column(status: string, tasks: seq<Task>): (lane: Lane)
    ensures lane.status == status && lane.tasks == Having(tasks, ByStatus, status)
    ensures lane.count == |lane.tasks| == multiset(Attributes(tasks, ByStatus))[Some(status)]
  {
    HavingCount(tasks, ByStatus, status);
    var shown := Having(tasks, ByStatus, status);
    Lane(status, shown, |shown|)
  }

  /** `BoardView`: one column per lane status, over `tasks || []`. */
  function Columns(tasks: Option<seq<Task>>): (lanes: seq<Lane>)
    ensures |lanes| == |TaskStatus| == 4
    ensures forall i :: 0 <= i < 4 ==> lanes[i] == Column(TaskStatus[i], OrEmpty(tasks))
  {
    var ts := OrEmpty(tasks);
    [Column(ToDo, ts), Column(WorkInProgress, ts), Column(UnderReview, ts), Column(Completed, ts)]
  }

  /** The lanes appear as "To Do", "Work In Progress", "Under Review", "Completed". */
  lemma LaneOrder(tasks: Option<seq<Task>>)
    ensures |Columns(tasks)| == 4
    ensures Columns(tasks)[0].status == "To Do" && Columns(tasks)[1].status == "Work In Progress"
    ensures Columns(tasks)[2].status == "Under Review" && Columns(tasks)[3].status == "Completed"
  {
  }

  /** A lane shows exactly the fetched tasks that carry its status. */
  lemma LaneMembership(tasks: Option<seq<Task>>, i: nat, t: Task)
    requires i < 4
    ensures t in Columns(tasks)[i].tasks <==> t in OrEmpty(tasks) && t.status == Some(TaskStatus[i])
  {
    HavingMembership(OrEmpty(tasks), ByStatus, TaskStatus[i], t);
  }

  /** Each lane keeps the fetched order: the lane of a concatenation is the concatenation of lanes. */
  lemma LaneStable(a: seq<Task>, b: seq<Task>, i: nat)
    requires i < 4
    ensures Columns(Some(a + b))[i].tasks == Columns(Some(a))[i].tasks + Columns(Some(b))[i].tasks
  {
    HavingAppend(a, b, ByStatus, TaskStatus[i]);
  }

  /** No task is shown in two lanes. */
  lemma LanesDisjoint(tasks: Option<seq<Task>>, i: nat, j: nat, t: Task)
    requires i < 4 && j < 4 && i != j
    ensures !(t in Columns(tasks)[i].tasks && t in Columns(tasks)[j].tasks)
  {
    LaneMembership(tasks, i, t);
    LaneMembership(tasks, j, t);
  }

  /** A task whose status is none of the four lane statuses is shown in no lane. */
  lemma OffBoardStatusHidden(tasks: Option<seq<Task>>, t: Task)
    requires forall i :: 0 <= i < 4 ==> t.status != Some(TaskStatus[i])
    ensures forall i :: 0 <= i < 4 ==> t !in Columns(tasks)[i].tasks
  {
    forall i | 0 <= i < 4 ensures t !in Columns(tasks)[i].tasks {
      LaneMembership(tasks, i, t);
    }
  }

  /** Absent task data shows four empty lanes with count 0. */
  lemma AbsentTasksEmptyBoard()
    ensures forall i :: 0 <= i < 4 ==> Columns(None)[i].tasks == [] && Columns(None)[i].count == 0
  {
  }

  /** The status is one of `statuses`. */
  predicate HasStatusIn(t: Task, statuses: seq<string>) {
    t.status.Some? && t.status.value in statuses
  }

  /** The tasks whose status is one of `statuses`, in order. */
  function WithStatusIn(tasks: seq<Task>, statuses: seq<string>): (r: seq<Task>)
    ensures forall k :: 0 <= k < |r| ==> r[k] in tasks && HasStatusIn(r[k], statuses)
  {
    if tasks == [] then []
    else if HasStatusIn(tasks[0], statuses) then [tasks[0]] + WithStatusIn(tasks[1..], statuses)
    else WithStatusIn(tasks[1..], statuses)
  }

  /** The fetched tasks that the board shows at all, in order: those with a lane status. */
  function Shown(tasks: seq<Task>): seq<Task> {
    WithStatusIn(tasks, TaskStatus)
  }

  predicate Distinct(statuses: seq<string>) {
    forall i, j :: 0 <= i < j < |statuses| ==> statuses[i] != statuses[j]
  }

  /** The four lane statuses are pairwise different. */
  lemma LaneStatusesDistinct()
    ensures Distinct(TaskStatus)
  {
  }

  /** The multiset of tasks selected by the status filters of `statuses`, one filter per status. */
  function LaneBag(tasks: seq<Task>, statuses: seq<string>): multiset<Task>
    decreases |statuses|
  {
    if statuses == [] then multiset{}
    else multiset(Having(tasks, ByStatus, statuses[0])) + LaneBag(tasks, statuses[1..])
  }

  /** One step of a status filter, as multisets. */
  lemma WithStatusStep(tasks: seq<Task>, status: string)
    requires tasks != []
    ensures multiset(Having(tasks, ByStatus, status))
            == (if tasks[0].status == Some(status) then multiset{tasks[0]} else multiset{})
               + multiset(Having(tasks[1..], ByStatus, status))
  {
    if tasks[0].status == Some(status) {
      assert Having(tasks, ByStatus, status) == [tasks[0]] + Having(tasks[1..], ByStatus, status);
    }
  }

  /** Dropping the first of distinct statuses leaves distinct statuses. */
  lemma DistinctTail(statuses: seq<string>)
    requires statuses != [] && Distinct(statuses)
    ensures Distinct(statuses[1..])
  {
    var rest := statuses[1..];
    forall i, j | 0 <= i < j < |rest| ensures rest[i] != rest[j] {
      assert rest[i] == statuses[i + 1] && rest[j] == statuses[j + 1];
    }
  }

  /** The bag a task contributes: itself once if its status is among `statuses`. */
  function Contribution(t: Task, statuses: seq<string>): multiset<Task> {
    if HasStatusIn(t, statuses) then multiset{t} else multiset{}
  }

  /** Among distinct statuses, a task's contribution comes from the first status or from the rest, never both. */
  lemma ContributionSplit(t: Task, statuses: seq<string>)
    requires statuses != [] && Distinct(statuses)
    ensures Contribution(t, statuses)
            == (if t.status == Some(statuses[0]) then multiset{t} else multiset{}) + Contribution(t, statuses[1..])
  {
    var s0, rest := statuses[0], statuses[1..];
    if t.status == Some(s0) {
      forall j | 0 <= j < |rest| ensures rest[j] != s0 {
        assert rest[j] == statuses[j + 1];
      }
      assert !HasStatusIn(t, rest);
    } else if t.status.Some? {
      var x := t.status.value;
      if x in statuses {
        var i :| 0 <= i < |statuses| && statuses[i] == x;
        assert rest[i - 1] == x;
      }
      if x in rest {
        var i :| 0 <= i < |rest| && rest[i] == x;
        assert statuses[i + 1] == x;
      }
    }
  }

  /** With distinct statuses, the first task is in the bag once if its status is among them, else not at all. */
  lemma {:induction false} LaneBagStep(tasks: seq<Task>, statuses: seq<string>)
    requires tasks != [] && Distinct(statuses)
    ensures LaneBag(tasks, statuses) == Contribution(tasks[0], statuses) + LaneBag(tasks[1..], statuses)
    decreases |statuses|
  {
    if statuses != [] {
      var t, later, s0, rest := tasks[0], tasks[1..], statuses[0], statuses[1..];
      DistinctTail(statuses);
      WithStatusStep(tasks, s0);
      LaneBagStep(tasks, rest);
      ContributionSplit(t, statuses);
      var c0: multiset<Task> := if t.status == Some(s0) then multiset{t} else multiset{};
      var c1, c := Contribution(t, rest), Contribution(t, statuses);
      var w, w' := multiset(Having(tasks, ByStatus, s0)), multiset(Having(later, ByStatus, s0));
      var b, b' := LaneBag(tasks, rest), LaneBag(later, rest);
      calc {
        LaneBag(tasks, statuses);
        w + b;
        (c0 + w') + (c1 + b');
        (c0 + c1) + (w' + b');
        c + LaneBag(later, statuses);
      }
    }
  }

  /** No tasks give an empty bag, whatever the statuses. */
  lemma {:induction false} LaneBagOfNone(statuses: seq<string>)
    ensures LaneBag([], statuses) == multiset{}
    decreases |statuses|
  {
    if statuses != [] {
      LaneBagOfNone(statuses[1..]);
      assert Having([], ByStatus, statuses[0]) == [];
    }
  }

  /** Filters by distinct statuses together hold each task of those statuses as often as the list does. */
  lemma {:induction false} StatusPartition(tasks: seq<Task>, statuses: seq<string>)
    requires Distinct(statuses)
    ensures LaneBag(tasks, statuses) == multiset(WithStatusIn(tasks, statuses))
  {
    if tasks == [] {
      LaneBagOfNone(statuses);
    } else {
      var t, later := tasks[0], tasks[1..];
      StatusPartition(later, statuses);
      LaneBagStep(tasks, statuses);
      var rest := multiset(WithStatusIn(later, statuses));
      assert LaneBag(tasks, statuses) == Contribution(t, statuses) + LaneBag(later, statuses);
      if HasStatusIn(t, statuses) {
        assert WithStatusIn(tasks, statuses) == [t] + WithStatusIn(later, statuses);
        assert LaneBag(tasks, statuses) == multiset{t} + rest;
      } else {
        assert LaneBag(tasks, statuses) == multiset{} + rest;
        assert multiset{} + rest == rest;
      }
    }
  }

  /** The four lanes together hold each displayable task exactly as often as the fetched list does. */
  lemma LanesPartition(tasks: seq<Task>)
    ensures var lanes := Columns(Some(tasks));
            multiset(lanes[0].tasks) + (multiset(lanes[1].tasks)
            + (multiset(lanes[2].tasks) + multiset(lanes[3].tasks))) == multiset(Shown(tasks))
  {
    LaneStatusesDistinct();
    StatusPartition(tasks, TaskStatus);
    var s1: seq<string> := [WorkInProgress, UnderReview, Completed];
    var s2: seq<string> := [UnderReview, Completed];
    var s3: seq<string> := [Completed];
    assert TaskStatus[1..] == s1 && s1[1..] == s2 && s2[1..] == s3 && s3[1..] == [];
    var m0, m1 := multiset(Having(tasks, ByStatus, ToDo)), multiset(Having(tasks, ByStatus, WorkInProgress));
    var m2, m3 := multiset(Having(tasks, ByStatus, UnderReview)), multiset(Having(tasks, ByStatus, Completed));
    var lanes := Columns(Some(tasks));
    assert lanes[0].tasks == Having(tasks, ByStatus, ToDo) && lanes[1].tasks == Having(tasks, ByStatus, WorkInProgress);
    assert lanes[2].tasks == Having(tasks, ByStatus, UnderReview) && lanes[3].tasks == Having(tasks, ByStatus, Completed);
    calc {
      multiset(Shown(tasks));
      LaneBag(tasks, TaskStatus);
      m0 + LaneBag(tasks, s1);
      m0 + (m1 + LaneBag(tasks, s2));
      m0 + (m1 + (m2 + LaneBag(tasks, s3)));
      { assert LaneBag(tasks, s3) == m3 + multiset{}; assert m3 + multiset{} == m3; }
      m0 + (m1 + (m2 + m3));
    }
  }

  /** The status-update request issued by a drop: `updateTaskStatus({ taskId, status })`. */
  datatype StatusUpdate = StatusUpdate(taskId: int, status: string)

  /** The drag payload, captured when the drag starts: the task's id only. */
  datatype DragItem = DragItem(id: int)

  function DragItemOf(t: Task): DragItem {
    DragItem(t.id)
  }

  /** The styling of a lane while a task hovers over it; the only effect of hovering. */
  function HoverHighlight(isOver: bool, isDarkMode: bool): (cls: string)
    ensures cls != "" <==> isOver
  {
    if isOver then (if isDarkMode then "bg-gray-900/50" else "bg-blue-50") else ""
  }

  /** A board card shows its points whenever `points` is a number, 0 included. */
  function ShowsPoints(t: Task): (shown: bool)
    ensures shown <==> t.points.Some?
  {
    t.points.Some?
  }

  /** The mutations the board has issued to the task store, oldest first. */
  class StatusMutations {
    var issued: seq<StatusUpdate>

    constructor ()
      ensures issued == []
    {
      issued := [];
    }

    /** `moveTask`: issues one status update. */
    method MoveTask(taskId: int, toStatus: string)
      modifies this
      ensures issued == old(issued) + [StatusUpdate(taskId, toStatus)]
    {
      issued := issued + [StatusUpdate(taskId, toStatus)];
    }

    /** The drop callback of the lane `laneStatus`: one update for the dragged id. */
    method Drop(item: DragItem, laneStatus: string)
      modifies this
      ensures issued == old(issued) + [StatusUpdate(item.id, laneStatus)]
    {
      MoveTask(item.id, laneStatus);
    }
  }

  /** A client of the class: dragging a task onto a lane issues exactly that task's update. */
  method DragAndDrop(log: StatusMutations, t: Task, lane: Lane) returns (u: StatusUpdate)
    modifies log
    ensures u == StatusUpdate(t.id, lane.status)
    ensures log.issued == old(log.issued) + [u]
  {
    var item := DragItemOf(t);
    log.Drop(item, lane.status);
    u := StatusUpdate(t.id, lane.status);
  }

  /**
   * What the task store does with an update once it succeeds: every task with
   * that id takes the new status. The board re-derives its lanes from the list
   * it fetches next.
   */
  function SetStatus(tasks: seq<Task>, u: StatusUpdate): (r: seq<Task>)
    ensures |r| == |tasks|
    ensures forall k :: 0 <= k < |r| ==>
      if tasks[k].id == u.taskId then r[k] == tasks[k].(status := Some(u.status)) else r[k] == tasks[k]
  {
    seq(|tasks|, k requires 0 <= k < |tasks| =>
      if tasks[k].id == u.taskId then tasks[k].(status := Some(u.status)) else tasks[k])
  }

  /**
   * After the store applies a drop's update and the list is fetched again, the
   * dropped task is in the target lane and in no other; other tasks keep their lanes.
   */
  lemma DroppedTaskLandsInLane(tasks: seq<Task>, u: StatusUpdate, i: nat, j: nat, k: nat)
    requires i < 4 && j < 4 && u.status == TaskStatus[i] && k < |tasks|
    ensures var r := SetStatus(tasks, u);
            var lanes := Columns(Some(r));
            (tasks[k].id == u.taskId ==> r[k] in lanes[i].tasks && (j != i ==> r[k] !in lanes[j].tasks))
            && (tasks[k].id != u.taskId ==>
                  (r[k] in lanes[j].tasks <==> tasks[k] in Columns(Some(tasks))[j].tasks))
  {
    var r := SetStatus(tasks, u);
    assert r[k] in r;
    LaneStatusesDistinct();
    LaneMembership(Some(r), i, r[k]);
    LaneMembership(Some(r), j, r[k]);
    LaneMembership(Some(tasks), j, tasks[k]);
  }
}
