/**
 * The task and project records the views read, and the status and priority
 * filters that the board, the project header and the statistics share.
 * Dates are integer timestamps; an absent or empty date string is `None`.
 */
module Tasks {
  import opened Wrappers

  const ToDo := "To Do"
  const WorkInProgress := "Work In Progress"
  const UnderReview := "Under Review"
  const Completed := "Completed"

  const Urgent := "Urgent"
  const High := "High"
  const Medium := "Medium"
  const Low := "Low"
  const Backlog := "Backlog"

  datatype User = User(username: Option<string>)

  datatype Comment = Comment(text: string)

  datatype Task = Task(
    id: int,
    title: string,
    description: Option<string>,
    status: Option<string>,
    priority: Option<string>,
    tags: Option<string>,
    startDate: Option<int>,
    dueDate: Option<int>,
    points: Option<int>,
    comments: Option<seq<Comment>>,
    author: Option<User>,
    assignee: Option<User>)

  datatype Project = Project(
    id: int,
    name: string,
    description: Option<string>,
    startDate: Option<int>,
    endDate: Option<int>,
    tasks: Option<seq<Task>>)

  /** `tasks || []`: an absent list is the empty list. */
  function OrEmpty(tasks: Option<seq<Task>>): seq<Task> {
    tasks.GetOr([])
  }

  /** The two task fields the views filter on. */
  datatype Attribute = ByStatus | ByPriority

  /** `task.status` or `task.priority`. */
  function AttributeOf(t: Task, a: Attribute): Option<string> {
    match a
    case ByStatus => t.status
    case ByPriority => t.priority
  }

  /**
   * `tasks.filter(task => task.status === value)`, and the same filter on
   * `task.priority`.
   */
  function Having(tasks: seq<Task>, a: Attribute, value: string): (r: seq<Task>)
    ensures |r| <= |tasks|
    ensures forall k :: 0 <= k < |r| ==> r[k] in tasks && AttributeOf(r[k], a) == Some(value)
  {
    if tasks == [] then []
    else if AttributeOf(tasks[0], a) == Some(value) then [tasks[0]] + Having(tasks[1..], a, value)
    else Having(tasks[1..], a, value)
  }

  /** A task is selected exactly when it is in the list and has the value. */
  lemma {:induction false} HavingMembership(tasks: seq<Task>, a: Attribute, value: string, t: Task)
    ensures t in Having(tasks, a, value) <==> t in tasks && AttributeOf(t, a) == Some(value)
  {
    if tasks != [] {
      HavingMembership(tasks[1..], a, value, t);
      assert tasks == [tasks[0]] + tasks[1..];
    }
  }

  /** The filter distributes over concatenation, so it keeps the original relative order. */
  lemma {:induction false} HavingAppend(x: seq<Task>, y: seq<Task>, a: Attribute, value: string)
    ensures Having(x + y, a, value) == Having(x, a, value) + Having(y, a, value)
  {
    if x == [] {
      assert x + y == y;
    } else {
      assert (x + y)[0] == x[0];
      assert (x + y)[1..] == x[1..] + y;
      HavingAppend(x[1..], y, a, value);
    }
  }

  /** Reference projection: the statuses (or priorities) of the tasks, in order. */
  function Attributes(tasks: seq<Task>, a: Attribute): (r: seq<Option<string>>)
    ensures |r| == |tasks| && forall k :: 0 <= k < |r| ==> r[k] == AttributeOf(tasks[k], a)
  {
    seq(|tasks|, k requires 0 <= k < |tasks| => AttributeOf(tasks[k], a))
  }

  /** The filtered list holds as many tasks as there are occurrences of the value. */
  lemma {:induction false} HavingCount(tasks: seq<Task>, a: Attribute, value: string)
    ensures |Having(tasks, a, value)| == multiset(Attributes(tasks, a))[Some(value)]
  {
    if tasks != [] {
      HavingCount(tasks[1..], a, value);
      assert Attributes(tasks, a) == [AttributeOf(tasks[0], a)] + Attributes(tasks[1..], a);
    }
  }

  /** Tasks of two different statuses (or priorities) together are no more than all tasks. */
  lemma {:induction false} TwoValuesBounded(tasks: seq<Task>, a: Attribute, v1: string, v2: string)
    requires v1 != v2
    ensures |Having(tasks, a, v1)| + |Having(tasks, a, v2)| <= |tasks|
  {
    if tasks != [] {
      TwoValuesBounded(tasks[1..], a, v1, v2);
    }
  }
}
