/**
 * The task table's cell renderers: status and priority class lookups with a
 * shared default, the user cell and the date cells. The tag cell is
 * `Tags.TableTags`.
 */
module TableView {
  import opened Wrappers
  import opened Tasks

  const DefaultCellClass := "bg-gray-100 text-gray-800"

  const StatusClasses: map<string, string> :=
    map[ToDo := "bg-gray-100 text-gray-800", WorkInProgress := "bg-blue-100 text-blue-800",
        UnderReview := "bg-yellow-100 text-yellow-800", Completed := "bg-green-100 text-green-800"]

  const PriorityClasses: map<string, string> :=
    map[Urgent := "bg-red-100 text-red-800", High := "bg-orange-100 text-orange-800",
        Medium := "bg-yellow-100 text-yellow-800", Low := "bg-blue-100 text-blue-800",
        Backlog := "bg-gray-100 text-gray-800"]

  /** `statusColors[value] || default`; an absent cell value finds nothing. */
  function StatusClass(value: Option<string>): (cls: string)
    ensures value.Some? && value.value in StatusClasses ==> cls == StatusClasses[value.value]
    ensures (value.None? || value.value !in StatusClasses) ==> cls == DefaultCellClass
  {
    if value.Some? then LookupOr(StatusClasses, value.value, DefaultCellClass) else DefaultCellClass
  }

  /** `priorityColors[value] || default`, over five priorities including Backlog. */
  function PriorityClass(value: Option<string>): (cls: string)
    ensures value.Some? && value.value in PriorityClasses ==> cls == PriorityClasses[value.value]
    ensures (value.None? || value.value !in PriorityClasses) ==> cls == DefaultCellClass
  {
    if value.Some? then LookupOr(PriorityClasses, value.value, DefaultCellClass) else DefaultCellClass
  }

  /** Each lane status gets its own class; "To Do" shares the default's. */
  lemma StatusClassesDistinct(a: string, b: string)
    requires a in StatusClasses && b in StatusClasses && a != b
    ensures StatusClass(Some(a)) != StatusClass(Some(b))
  {
  }

  /** Each priority gets its own class; Backlog shares the default's. */
  lemma PriorityClassesDistinct(a: string, b: string)
    requires a in PriorityClasses && b in PriorityClasses && a != b
    ensures PriorityClass(Some(a)) != PriorityClass(Some(b))
  {
  }

  const Unassigned := "Unassigned"

  /** `value?.username || "Unassigned"`. */
  function UserCell(value: Option<User>): (name: string)
    ensures value.Some? && Truthy(value.value.username) ==> name == value.value.username.value
    ensures !(value.Some? && Truthy(value.value.username)) ==> name == Unassigned
  {
    if value.Some? && value.value.username.Some? then OrElse(value.value.username.value, Unassigned)
    else Unassigned
  }

  /** `params.value || "-"` for a date column's raw text. */
  function DateCell(value: Option<string>): (text: string)
    ensures Truthy(value) ==> text == value.value
    ensures !Truthy(value) ==> text == "-"
  {
    if value.Some? then OrElse(value.value, "-") else "-"
  }
}
