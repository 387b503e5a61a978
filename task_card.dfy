/**
 * The task card: priority colour and status icon lookups with defaults, the
 * comment count, and when the points badge and the date separator show. The
 * card's tag list is `Tags.CardTags`, the same rule as the board card's.
 */
module TaskCard {
  import opened Wrappers
  import opened Tasks
  import Board

  const DefaultPriorityColor := "bg-gray-400"

  /** `priorityColors`, without its `default` entry. */
  const PriorityColors: map<string, string> :=
    map[Urgent := "bg-red-500", High := "bg-yellow-500", Medium := "bg-green-500", Low := "bg-blue-500"]

  /**
   * `priorityColors[priority] || priorityColors.default`. A priority spelled
   * `"default"` finds the default entry itself, which is the same colour.
   */
  function PriorityColor(priority: string): (color: string)
    ensures priority in PriorityColors ==> color == PriorityColors[priority]
    ensures priority !in PriorityColors ==> color == DefaultPriorityColor
  {
    LookupOr(PriorityColors, priority, DefaultPriorityColor)
  }

  /** Each known priority has its own colour, and none of them is the default. */
  lemma PriorityColorsDistinct(p: string, q: string)
    requires p in PriorityColors && q in PriorityColors && p != q
    ensures PriorityColor(p) != PriorityColor(q)
    ensures PriorityColor(p) != DefaultPriorityColor
  {
  }

  datatype StatusIcon = OpenCircle | PulsingCircle | YellowCircle | CheckCircle | PlainCircle

  /** `statusIcons`, without its `default` entry. */
  const StatusIcons: map<string, StatusIcon> :=
    map[ToDo := OpenCircle, WorkInProgress := PulsingCircle, UnderReview := YellowCircle, Completed := CheckCircle]

  /** `statusIcons[status] || statusIcons.default`: an element is always truthy. */
  function StatusIconOf(status: string): (icon: StatusIcon)
    ensures status in StatusIcons ==> icon == StatusIcons[status]
    ensures status !in StatusIcons ==> icon == PlainCircle
  {
    if status in StatusIcons then StatusIcons[status] else PlainCircle
  }

  /** The default icon is exactly the icon of a status outside the four lanes. */
  lemma DefaultIconIffUnknownStatus(status: string)
    ensures StatusIconOf(status) == PlainCircle <==> status !in StatusIcons
  {
  }

  /** `task.comments?.length || 0`. */
  function CommentCount(t: Task): (n: nat)
    ensures t.comments.None? ==> n == 0
    ensures t.comments.Some? ==> n == |t.comments.value|
  {
    if t.comments.Some? then |t.comments.value| else 0
  }

  /** What `{task.points && <badge/>}` puts in the header. */
  datatype PointsSlot = Badge(points: int) | BareNumber(n: int) | Empty

  /**
   * The header slot as written: a falsy `0` short-circuits the `&&` and React
   * renders that number itself, so points of 0 show a bare "0".
   */
  function PointsSlotAsWritten(points: Option<int>): PointsSlot {
    match points
    case None => Empty
    case Some(n) => if n == 0 then BareNumber(0) else Badge(n)
  }

  lemma ZeroPointsRenderBareZero()
    ensures PointsSlotAsWritten(Some(0)) == BareNumber(0)
  {
  }

  /** The slot as evidently intended: a badge for truthy points, nothing otherwise. */
  function PointsSlotOf(points: Option<int>): (slot: PointsSlot)
    ensures slot.Badge? <==> points.Some? && points.value != 0
    ensures slot.Badge? ==> slot.points == points.value
    ensures !slot.BareNumber?
  {
    if points.Some? && points.value != 0 then Badge(points.value) else Empty
  }

  /** The intended slot differs from the written one only at points of 0. */
  lemma PointsSlotAgreesExceptZero(points: Option<int>)
    ensures points != Some(0) <==> PointsSlotOf(points) == PointsSlotAsWritten(points)
  {
  }

  /** The card hides the badge for 0 points, which the board card shows. */
  lemma ZeroPointsBoardShowsCardHides(t: Task)
    requires t.points == Some(0)
    ensures Board.ShowsPoints(t)
    ensures !PointsSlotOf(t.points).Badge?
  {
  }

  /** The "-" between the dates shows only when both dates are there. */
  function ShowDateSeparator(t: Task): (shown: bool)
    ensures shown <==> t.startDate.Some? && t.dueDate.Some?
  {
    t.startDate.Some? && t.dueDate.Some?
  }
}
