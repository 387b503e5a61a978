# Pro-Man core, modelled in Dafny

Pro-Man is a kanban-style project-management application. It has a React front end and an
Express search endpoint. This project models the logic parts of those files and proves
properties about them. Those parts are:

- the board's four status lanes, and the drop handler that issues status updates;
- the project header's progress percentage, task statistics and active tab;
- the two Gantt timelines: tasks of one project, and all projects;
- the validators and state handlers of the "new task" and "new project" forms;
- the global UI slice: sidebar, dark mode, and the persisted dark-mode value;
- the search endpoint's query validation and result metadata;
- the display lookups and tag parsing of the task card and the task table.

Modules, one per source file, plus shared helpers:

| module | file | models |
|---|---|---|
| `Wrappers` | wrappers.dfy | `Option`, JavaScript truthiness of strings, `a \|\| b` and `table[key] \|\| fallback`, a conditional map insert |
| `Text` | text.dfy | `String.prototype.trim` over the ECMAScript white-space set, `split(",")` and its inverse, decimal integer formatting |
| `Tasks` | tasks.dfy | the task, project, user and comment records, and the status and priority filters |
| `Tags` | tags.dfy | the two tag rules: card (drop blank pieces, keep untrimmed) and table (trim every piece, keep empty ones) |
| `Board` | board.dfy | lanes, counts, the drop handler (`class StatusMutations`), the server-side status change |
| `ProjectHeader` | project_header.dfy | `calculateProgress`, `taskStats`, the header blocks, the tab test |
| `Gantt` | gantt.dfy | the Gantt bar record |
| `TimelineView` | timeline_view.dfy | a project's task timeline and its colour helpers |
| `ProjectsTimeline` | projects_timeline.dfy | the all-projects timeline |
| `Parsing` | parsing.dfy | `Number()`/`isNaN` and date parsing, as given functions |
| `ModalNewTask` | modal_new_task.dfy | the new-task form (`class TaskModal`) |
| `ModalNewProject` | modal_new_project.dfy | the new-project form (`class ProjectModal`) |
| `GlobalState` | global_state.dfy | the Redux slice (`class GlobalSlice`) |
| `SearchController` | search.dfy | `search` |
| `TaskCard` | task_card.dfy | the task card's lookups and conditions |
| `TableView` | table_view.dfy | the task table's cell renderers |

Conventions of the model:

- **Dates.** Dates on records are integer timestamps; a missing date is `None`. The form fields
  stay strings. They are compared through a given `instant` function.
- **Time.** The current time `now` is a parameter, not a clock read.
- **Effects.** Every effect toward the outside is an entry in a log field:
  - `created` holds the create requests sent;
  - `closeRequests` counts the calls of `onClose`;
  - `issued` holds the status updates sent.
- **Absence.** An absent string and the empty string are both falsy (`Truthy`). Points of 0 are
  also falsy where the source tests them with `&&` or `?:`.
- **State changes.** State that the source changes in place is a `class` whose methods
  `modify` it: form state, error maps, the slice and the mutation log. Their postconditions
  state the whole new state. Derived views are functions.

## Model

| member | source | states |
|---|---|---|
| `Wrappers.Truthy` | client/src/app/projects/TableView/index.tsx:49 | JavaScript truthiness of an optional string: absent and "" are falsy (a predicate used by every fallback contract) |
| `Wrappers.OrElse` | client/src/app/projects/TableView/index.tsx:49 | `a \|\| b` on strings: `a` when it is non-empty, otherwise `b` |
| `Wrappers.LookupOr` | client/src/app/_components/TaskCard/index.tsx:25 | `table[key] \|\| fallback`: the entry when the key is present and the entry is non-empty; the fallback when the key is absent or its entry is "" |
| `Wrappers.Put` | client/src/app/_components/ModalNewTask/index.tsx:46-66 | `newErrors[field] = msg` when a rule fires: the key is added with that message and every other entry is unchanged; nothing changes when the rule does not fire |
| `Text.LeadingWhitespace` | server/src/controllers/searchController.ts:16 | the length of the white-space run at the start: every character before it is white space, and the one after it is not |
| `Text.TrailingWhitespace` | server/src/controllers/searchController.ts:16 | the length of the white-space run at the end: every character in it is white space, and the one before it is not |
| `Text.Trim` | server/src/controllers/searchController.ts:23 | `trim()`: the result is the slice of the input after its leading white space; everything cut on either side is white space; the result has no white space at either end |
| `Text.IsWhitespace` | server/src/controllers/searchController.ts:16 | the characters `trim()` removes: ECMAScript WhiteSpace and LineTerminator |
| `Text.IsBlank` | client/src/app/projects/ModalNewProject/index.tsx:44 | every character is white space, so the trim is falsy (`TrimEmptyIffBlank`) |
| `Text.TrimEmptyIffBlank` | client/src/app/projects/ModalNewProject/index.tsx:44 | `!s.trim()` holds exactly when every character of `s` is white space |
| `Text.TrimOfTrimmed` | server/src/controllers/searchController.ts:23 | a string without white space at its ends trims to itself |
| `Text.TrimPadded` | server/src/controllers/searchController.ts:23 | blank padding around a core that has no white space at its ends trims to that core |
| `Text.TrimIdempotent` | client/src/app/projects/ModalNewProject/index.tsx:28-29 | trimming twice equals trimming once |
| `Text.Split` | client/src/app/projects/TableView/index.tsx:89 | `split(",")`: at least one piece, and no piece contains a comma |
| `Text.JoinSplit` | client/src/app/projects/TableView/index.tsx:89 | joining the pieces with commas gives back the string |
| `Text.SplitJoin` | client/src/app/projects/TableView/index.tsx:89 | splitting the comma-join of comma-free pieces gives back the pieces |
| `Text.Join` | client/src/app/projects/TableView/index.tsx:89 | `join(",")`, the reference inverse of `split(",")`; its properties are `JoinSplit` and `SplitJoin` |
| `Text.SplitPiece` | client/src/app/_components/TaskCard/index.tsx:57 | a comma-free string splits into itself alone |
| `Text.SplitPieceThenComma` | client/src/app/_components/TaskCard/index.tsx:57 | the first comma separates the first piece from the split of the rest |
| `Text.NatToDecimal` | client/src/app/projects/TimelineView/index.tsx:27 | a non-empty string of digits with no leading zero |
| `Text.IntToDecimal` | client/src/app/projects/TimelineView/index.tsx:27 | `toString()` of an integer: non-empty, and begins with a minus sign or a digit |
| `Text.NatDecimalRoundTrip` | client/src/app/projects/TimelineView/index.tsx:27 | the digits of `n` read back as `n` |
| `Text.DecimalRoundTrip` | client/src/app/projects/TimelineView/index.tsx:27 | the decimal form of any integer parses back to that integer |
| `Text.DecimalInjective` | client/src/app/timeline/page.tsx:27 | different integers have different decimal forms |
| `Tasks.OrEmpty` | client/src/app/projects/BoardView/index.tsx:37 | `tasks \|\| []`: the fetched list, or the empty list when it is absent (a selector; the lane and statistics contracts state its use) |
| `Tasks.AttributeOf` | client/src/app/projects/ProjectHeader.tsx:82-84 | `task.status` or `task.priority`, the two fields the views filter on (a selector) |
| `Tasks.Having` | client/src/app/projects/BoardView/index.tsx:124-125 | `filter(task => task.status === status)`, and by priority at ProjectHeader.tsx:84: no longer than the input, and every kept task is from the list and has the value |
| `Tasks.HavingMembership` | client/src/app/projects/BoardView/index.tsx:124-125 | a task is kept exactly when it is in the list and has the value |
| `Tasks.HavingAppend` | client/src/app/projects/BoardView/index.tsx:124-125 | the filter distributes over concatenation, so it is stable |
| `Tasks.Attributes` | client/src/app/projects/BoardView/index.tsx:71 | reference definition, not a source operation: the statuses (or priorities) of the tasks, position by position, which the count lemmas count in |
| `Tasks.HavingCount` | client/src/app/projects/ProjectHeader.tsx:82-84 | the filtered length is the number of occurrences of that status or priority |
| `Tasks.TwoValuesBounded` | client/src/app/projects/ProjectHeader.tsx:82-83 | two different statuses together count no more than all tasks |
| `Board.Column` | client/src/app/projects/BoardView/index.tsx:71-128 | a lane shows the stable status filter of the tasks; its count is that list's length, which equals the occurrences of its status |
| `Board.Columns` | client/src/app/projects/BoardView/index.tsx:33-42 | four lanes, one per entry of `taskStatus`, each over `tasks \|\| []` |
| `Board.LaneOrder` | client/src/app/projects/BoardView/index.tsx:16 | the lanes are "To Do", "Work In Progress", "Under Review", "Completed", in that order |
| `Board.LaneMembership` | client/src/app/projects/BoardView/index.tsx:124-125 | a lane holds exactly the fetched tasks with its status |
| `Board.LaneStable` | client/src/app/projects/BoardView/index.tsx:124-125 | a lane keeps the fetched order |
| `Board.LanesDisjoint` | client/src/app/projects/BoardView/index.tsx:16 | no task is in two lanes |
| `Board.OffBoardStatusHidden` | client/src/app/projects/BoardView/index.tsx:16 | a task whose status is none of the four is in no lane |
| `Board.AbsentTasksEmptyBoard` | client/src/app/projects/BoardView/index.tsx:37 | absent task data gives four empty lanes with count 0 |
| `Board.WithStatusIn` | client/src/app/projects/BoardView/index.tsx:124-125 | the tasks whose status is one of the given statuses, taken from the list |
| `Board.LaneStatusesDistinct` | client/src/app/projects/BoardView/index.tsx:16 | the four lane statuses are pairwise different |
| `Board.WithStatusStep` | client/src/app/projects/BoardView/index.tsx:124-125 | a status filter keeps the first task exactly when the task has that status |
| `Board.ContributionSplit` | client/src/app/projects/BoardView/index.tsx:16 | among distinct statuses a task matches the first one or one of the rest, never both |
| `Board.LaneBagStep` | client/src/app/projects/BoardView/index.tsx:124-125 | the filters of distinct statuses together take the first task once when its status is among them, otherwise not at all |
| `Board.LaneBagOfNone` | client/src/app/projects/BoardView/index.tsx:37 | no tasks fill no lane, whatever the statuses |
| `Board.StatusPartition` | client/src/app/projects/BoardView/index.tsx:124-125 | the filters of distinct statuses together hold every task with one of those statuses as often as the list does, and no other task |
| `Board.LanesPartition` | client/src/app/projects/BoardView/index.tsx:33-42 | the four lanes together are a partition of the displayable fetched tasks, counting duplicates |
| `Board.HoverHighlight` | client/src/app/projects/BoardView/index.tsx:90 | hovering adds a class exactly when `isOver`; it is a pure value, so hovering issues no update |
| `Board.ShowsPoints` | client/src/app/projects/BoardView/index.tsx:201 | the board card shows points whenever they are a number, 0 included |
| `Board.StatusMutations.constructor` | client/src/app/projects/BoardView/index.tsx:21 | no update has been issued |
| `Board.StatusMutations.MoveTask` | client/src/app/projects/BoardView/index.tsx:23-25 | exactly one update `(taskId, toStatus)` is appended to the log |
| `Board.StatusMutations.Drop` | client/src/app/projects/BoardView/index.tsx:63-65 | a drop on a lane appends exactly `(item.id, laneStatus)` |
| `Board.DragAndDrop` | client/src/app/projects/BoardView/index.tsx:142 | dragging a task onto a lane issues the update for the task's id, captured at drag start, and the lane's status |
| `Board.SetStatus` | client/src/app/projects/BoardView/index.tsx:24 | the assumed effect of the update on the refetched list: the tasks with that id take the new status and nothing else changes. The source line only sends the request; what the server and cache do is not part of this model |
| `Board.DroppedTaskLandsInLane` | client/src/app/projects/BoardView/index.tsx:23-25 | once the list is fetched again, the dropped task is in the target lane and no other; other tasks keep their lanes |
| `ProjectHeader.RoundHalfUp` | client/src/app/projects/ProjectHeader.tsx:68 | `Math.round(n / d)`: the nearest integer, with halves rounded up |
| `ProjectHeader.RatioBounds` | client/src/app/projects/ProjectHeader.tsx:66-68 | on the middle branch the rounded percentage lies in [0, 100] |
| `ProjectHeader.CalculateProgress` | client/src/app/projects/ProjectHeader.tsx:56-69 | lies in [0, 100] for every input; 0 without both dates; 100 from the end on, tested first; 0 up to the start; otherwise the elapsed share, rounded half up |
| `ProjectHeader.ProgressExamples` | client/src/app/projects/ProjectHeader.tsx:63-68 | for start 0 and end 10: now 5 gives 50, now 0 gives 0, now 10 gives 100; start after end gives 100 |
| `ProjectHeader.RoundingMonotone` | client/src/app/projects/ProjectHeader.tsx:68 | half-up rounding is monotone |
| `ProjectHeader.ProgressMonotone` | client/src/app/projects/ProjectHeader.tsx:56-69 | progress never decreases as time passes |
| `ProjectHeader.Stats` | client/src/app/projects/ProjectHeader.tsx:80-85 | total, completed, in-progress and urgent counts (all 0 for absent tasks): each of the last three is the number of tasks with that status or priority; each is at most the total, and completed plus in-progress is too |
| `ProjectHeader.Info` | client/src/app/projects/ProjectHeader.tsx:159-193 | shows completed/total; the urgent block, with the urgent count, exactly when that count is positive; the progress bar exactly when both dates are set, showing `calculateProgress` of the two dates, a value in [0, 100] |
| `ProjectHeader.UrgentBlockIffUrgentTask` | client/src/app/projects/ProjectHeader.tsx:165 | the urgent block shows exactly when some fetched task has priority "Urgent" |
| `ProjectHeader.IsActive` | client/src/app/projects/ProjectHeader.tsx:263 | `activeTab === name` (a predicate; its property is `AtMostOneActiveTab`) |
| `ProjectHeader.AtMostOneActiveTab` | client/src/app/projects/ProjectHeader.tsx:202-225 | a tab is active exactly when `activeTab` is its name, so at most one of the four tabs is active |
| `TimelineView.TaskColor` | client/src/app/projects/TimelineView/index.tsx:135-143 | `getTaskColor`: the colour table per priority and mode; its properties are `ColorFallback` and `ColorsDistinguishPriorities` |
| `TimelineView.SelectedTaskColor` | client/src/app/projects/TimelineView/index.tsx:145-153 | `getSelectedTaskColor`: the darker table; same lemmas |
| `TimelineView.ProgressColor` | client/src/app/projects/TimelineView/index.tsx:155-157 | `getProgressColor`: white in dark mode, black otherwise; its property is `ProgressColorsIgnorePriority` |
| `TimelineView.SelectedProgressColor` | client/src/app/projects/TimelineView/index.tsx:159-161 | `getSelectedProgressColor`: the same two colours; same lemma |
| `TimelineView.ColorFallback` | client/src/app/projects/TimelineView/index.tsx:135-153 | an absent or unknown priority (Backlog included) gets #6b7280/#9ca3af, and #4b5563/#6b7280 when selected |
| `TimelineView.ColorsDistinguishPriorities` | client/src/app/projects/TimelineView/index.tsx:135-153 | in either mode, each known priority's colour differs from that of any other priority or of the default |
| `TimelineView.ProgressColorsIgnorePriority` | client/src/app/projects/TimelineView/index.tsx:155-161 | both progress colours depend only on the mode, and the two modes differ |
| `TimelineView.PointsProgress` | client/src/app/projects/TimelineView/index.tsx:29 | 0 for absent or non-positive points; ten per point up to 10 points; 100 from 10 points on; always in [0, 100] |
| `TimelineView.PointsProgressExamples` | client/src/app/projects/TimelineView/index.tsx:29 | 5 points give 50, 12 give 100, -3 and absent give 0 |
| `TimelineView.Bar` | client/src/app/projects/TimelineView/index.tsx:23-38 | a task's bar: dates, title, decimal id, type task, enabled, points progress, priority colours; description and status only when truthy |
| `TimelineView.Bars` | client/src/app/projects/TimelineView/index.tsx:22-40 | one bar per task in the same order, no task excluded; absent tasks give no bars |
| `TimelineView.BarIdRoundTrip` | client/src/app/projects/TimelineView/index.tsx:27 | a bar's id parses back to its task's id |
| `TimelineView.BarIdsDistinct` | client/src/app/projects/TimelineView/index.tsx:27 | tasks with different ids get bars with different ids |
| `ProjectsTimeline.Bar` | client/src/app/timeline/page.tsx:23-30 | a project's bar: its dates and name, id "Project-" plus the decimal id, type project, progress 50, enabled |
| `ProjectsTimeline.Bars` | client/src/app/timeline/page.tsx:21-33 | one bar per project in the same order; absent projects give no bars |
| `ProjectsTimeline.ProgressIsConstant` | client/src/app/timeline/page.tsx:29 | every project's bar has progress 50, whatever the project |
| `ProjectsTimeline.BarIdsDistinct` | client/src/app/timeline/page.tsx:27 | projects with different ids get bars with different ids |
| `ProjectsTimeline.ProjectAndTaskIdsDisjoint` | client/src/app/timeline/page.tsx:27 | a project bar's id never equals a task bar's id |
| `Tags.NonBlank` | client/src/app/projects/BoardView/index.tsx:148 | `filter(tag => tag.trim())`: kept pieces come from the input, untrimmed, and none is all white space |
| `Tags.NonBlankAppend` | client/src/app/projects/BoardView/index.tsx:148 | the filter distributes over concatenation, so kept pieces stay in order |
| `Tags.NonBlankMembership` | client/src/app/projects/BoardView/index.tsx:148 | a piece is kept exactly when it occurs and is not all white space |
| `Tags.NonBlankKeepsTruthyTrims` | client/src/app/projects/BoardView/index.tsx:148 | a piece is kept exactly when it occurs and its trim is non-empty, which is the source's filter test |
| `Tags.CardTags` | client/src/app/_components/TaskCard/index.tsx:57 | no tags when `tags` is absent or empty; otherwise exactly the non-blank pieces of the split, untrimmed and in order (so a piece is a tag exactly when it is not blank), each comma-free |
| `Tags.TrimAll` | client/src/app/projects/TableView/index.tsx:89-92 | every piece trimmed, position by position |
| `Tags.TableTags` | client/src/app/projects/TableView/index.tsx:89-92 | `value?.split(",").map(trim)`: none when absent; otherwise one tag per piece, each the trimmed piece, empty ones kept |
| `Tags.CardTagsWithinTableTags` | client/src/app/projects/TableView/index.tsx:89-92 | every card tag, trimmed, is among the table tags of the same string |
| `Tags.TableTagsAreTrimmed` | client/src/app/projects/TableView/index.tsx:92 | no table tag has white space at either end |
| `Tags.PieceExamples` | client/src/app/_components/TaskCard/index.tsx:57 | "a, ,  b" splits into "a", " ", "  b"; those trim to "a", "", "b" |
| `Tags.NonBlankExample` | client/src/app/_components/TaskCard/index.tsx:57 | of "a", " ", "  b" the blank piece is dropped and "  b" is kept untrimmed |
| `Tags.CardTagsExample` | client/src/app/_components/TaskCard/index.tsx:57 | the card shows "a" and "  b" for "a, ,  b" |
| `Tags.TableTagsExample` | client/src/app/projects/TableView/index.tsx:89-92 | the table shows "a", "" and "b" for "a, ,  b" |
| `Tags.EmptyTagsExample` | client/src/app/_components/TaskCard/index.tsx:57 | an empty tag string gives no card tags but one empty table tag |
| `Parsing.IsAfter` | client/src/app/_components/ModalNewTask/index.tsx:52 | date-fns `isAfter` on the two parsed instants: strictly later (also ModalNewProject/index.tsx:54) |
| `ModalNewTask.Set` | client/src/app/_components/ModalNewTask/index.tsx:36 | only the named field takes the new value |
| `ModalNewTask.FieldError` | client/src/app/_components/ModalNewTask/index.tsx:46-66 | the message one field ends with after all five rules, later rules overwriting earlier ones; its properties are `ErrorRules` and `ErrorsFollowFieldErrors` |
| `ModalNewTask.FormMessages` | client/src/app/_components/ModalNewTask/index.tsx:46-66 | the five fields' messages together; same lemmas |
| `ModalNewTask.ToMap` | client/src/app/_components/ModalNewTask/index.tsx:43-69 | only checked fields can carry a message |
| `ModalNewTask.Errors` | client/src/app/_components/ModalNewTask/index.tsx:43-69 | the error map's keys are among the five checked fields |
| `ModalNewTask.ErrorsFollowFieldErrors` | client/src/app/_components/ModalNewTask/index.tsx:43-69 | a field has an entry exactly when its rule fails, and the entry is that rule's message, taking the rules' overwrite order into account |
| `ModalNewTask.ErrorRules` | client/src/app/_components/ModalNewTask/index.tsx:46-66 | title: exactly when blank. Author: "required" when empty, "must be a number" when non-numeric, never both. Project: required only without an `id` prop; non-numeric always fails. Due date: only with both dates and start strictly after due. Assignee: only non-empty and non-numeric |
| `ModalNewTask.TitleRuleIsTrim` | client/src/app/_components/ModalNewTask/index.tsx:46 | the title error occurs exactly when `title.trim()` is empty |
| `ModalNewTask.ErrorsEmptyIffAcceptable` | client/src/app/_components/ModalNewTask/index.tsx:43-69 | the map is empty exactly when every rule passes |
| `ModalNewTask.ProjectFieldRequiredOnlyWithoutProp` | client/src/app/_components/ModalNewTask/index.tsx:48 | an empty project field is accepted with an `id` prop and an error without one |
| `ModalNewTask.Payload` | client/src/app/_components/ModalNewTask/index.tsx:82-93 | the create body copies the text fields; start, due and assignee are undefined exactly when empty; the project comes from the prop when there is one |
| `ModalNewTask.AcceptedPayloadWellFormed` | client/src/app/_components/ModalNewTask/index.tsx:76-93 | an error-free form sends a non-blank title, a numeric author, a numeric assignee if any, a numeric project unless the prop supplies it, and dates in order |
| `ModalNewTask.TaskModal.constructor` | client/src/app/_components/ModalNewTask/index.tsx:20-32 | the form starts at the defaults (To Do, Medium, the rest empty) with no errors, nothing created, nothing closed |
| `ModalNewTask.TaskModal.HandleChange` | client/src/app/_components/ModalNewTask/index.tsx:34-41 | only the named field changes; only that field's message is cleared, when present; no error key is added or removed |
| `ModalNewTask.TaskModal.ValidateForm` | client/src/app/_components/ModalNewTask/index.tsx:43-69 | the rule-by-rule construction yields exactly `Errors` of the form |
| `ModalNewTask.TaskModal.HandleSubmit` | client/src/app/_components/ModalNewTask/index.tsx:71-115 | with errors: shows them and sends nothing. Otherwise sends exactly the payload; on success resets the form, clears the errors and closes once; a failed create changes nothing else |
| `ModalNewProject.Set` | client/src/app/projects/ModalNewProject/index.tsx:63 | only the named field takes the new value |
| `ModalNewProject.NameError` | client/src/app/projects/ModalNewProject/index.tsx:44-46 | "Project name is required" for a blank name; its property is `ErrorRules` |
| `ModalNewProject.StartError` | client/src/app/projects/ModalNewProject/index.tsx:48-50 | "Start date is required" for an empty start date; same lemma |
| `ModalNewProject.EndError` | client/src/app/projects/ModalNewProject/index.tsx:52-56 | "required" for an empty end date, otherwise "must be after start" when start is set and after end; same lemma |
| `ModalNewProject.Errors` | client/src/app/projects/ModalNewProject/index.tsx:41-59 | only name, start date and end date can carry a message |
| `ModalNewProject.ErrorRules` | client/src/app/projects/ModalNewProject/index.tsx:44-56 | name: "Project name is required" exactly when blank. Start: required exactly when empty. End: "required" when empty, otherwise "must be after start" exactly when start is set and strictly after end |
| `ModalNewProject.NameRuleIsTrim` | client/src/app/projects/ModalNewProject/index.tsx:44 | the name error occurs exactly when `name.trim()` is empty |
| `ModalNewProject.ErrorsEmptyIffAcceptable` | client/src/app/projects/ModalNewProject/index.tsx:41-59 | the map is empty exactly for a non-blank name, both dates, and start not after end |
| `ModalNewProject.Payload` | client/src/app/projects/ModalNewProject/index.tsx:27-32 | sends the trimmed name and description and the dates as entered |
| `ModalNewProject.AcceptedPayloadWellFormed` | client/src/app/projects/ModalNewProject/index.tsx:20-32 | an error-free form sends a non-empty name and a description, both already trimmed, and both dates in order |
| `ModalNewProject.ProjectModal.constructor` | client/src/app/projects/ModalNewProject/index.tsx:9-15 | four empty fields, no errors, nothing created, nothing closed |
| `ModalNewProject.ProjectModal.HandleChange` | client/src/app/projects/ModalNewProject/index.tsx:61-68 | only the named field changes; only that field's message is cleared, when present |
| `ModalNewProject.ProjectModal.ValidateForm` | client/src/app/projects/ModalNewProject/index.tsx:41-59 | the rule-by-rule construction yields exactly `Errors` of the form |
| `ModalNewProject.ProjectModal.HandleClose` | client/src/app/projects/ModalNewProject/index.tsx:70-79 | resets all four fields, clears all errors and calls `onClose` once |
| `ModalNewProject.ProjectModal.HandleSubmit` | client/src/app/projects/ModalNewProject/index.tsx:17-39 | with errors: shows them and sends nothing. Otherwise sends the trimmed payload and closes on success; a failed create changes nothing else |
| `GlobalState.BoolString` | client/src/state/index.ts:29 | `String(b)` is "true" or "false" |
| `GlobalState.BoolStringInjective` | client/src/state/index.ts:29 | different flags persist different strings |
| `GlobalState.GlobalSlice.constructor` | client/src/state/index.ts:9-16 | sidebar open; dark mode is the system preference with a window and false without; nothing is written |
| `GlobalState.GlobalSlice.SetIsSidebarCollapsed` | client/src/state/index.ts:22-24 | only the sidebar flag changes, to the payload |
| `GlobalState.GlobalSlice.SetIsDarkMode` | client/src/state/index.ts:25-31 | the flag becomes the payload; with a window, `String(payload)` is persisted; the sidebar is untouched |
| `GlobalState.GlobalSlice.ToggleDarkMode` | client/src/state/index.ts:32-37 | flips the flag; with a window, it persists the pre-toggle flag, which never matches the new one |
| `GlobalState.ToggleTwice` | client/src/state/index.ts:32-37 | two toggles restore the flag and leave the sidebar alone; the stored value then holds the opposite flag |
| `SearchController.SearchTerm` | server/src/controllers/searchController.ts:16-23 | a term exists exactly for a string query of at least three characters after trimming, and it is the trimmed query |
| `SearchController.ErrorText` | server/src/controllers/searchController.ts:87 | an Error's message, or 'Unknown error occurred' |
| `SearchController.CountMeta` | server/src/controllers/searchController.ts:77-82 | each count is its list's length, and the total is their sum |
| `SearchController.Search` | server/src/controllers/searchController.ts:12-92 | 400 with the fixed message exactly for a rejected query; otherwise the three lists unchanged with their counts, or 500 with the error's text |
| `SearchController.RejectedQueryRunsNoSearch` | server/src/controllers/searchController.ts:16-21 | a rejected query's response does not depend on the searches |
| `SearchController.SearchesSeeTrimmedQuery` | server/src/controllers/searchController.ts:23 | the searches see only the trimmed query |
| `SearchController.StatusCode` | server/src/controllers/searchController.ts:17-89 | the HTTP status of each response kind: 400, 200 (the `res.json` default) and 500; its property is `ResponseShape` |
| `SearchController.ResponseShape` | server/src/controllers/searchController.ts:17-91 | the status is 400, 200 or 500, and a 200 response's total equals the sum of the lengths |
| `SearchController.QueryExamples` | server/src/controllers/searchController.ts:16-23 | "abc" trims to itself and is accepted as is; "  ab  " trims to "ab" and is rejected |
| `TaskCard.PriorityColor` | client/src/app/_components/TaskCard/index.tsx:17-25 | the listed colour for Urgent/High/Medium/Low, "bg-gray-400" for any other priority |
| `TaskCard.PriorityColorsDistinct` | client/src/app/_components/TaskCard/index.tsx:17-25 | the four known priorities have four different colours, none of them the default |
| `TaskCard.StatusIconOf` | client/src/app/_components/TaskCard/index.tsx:37-45 | the four lane statuses get their icons; any other status gets the default icon |
| `TaskCard.DefaultIconIffUnknownStatus` | client/src/app/_components/TaskCard/index.tsx:37-45 | the default icon appears exactly for an unknown status |
| `TaskCard.CommentCount` | client/src/app/_components/TaskCard/index.tsx:58 | the number of comments, 0 when absent |
| `TaskCard.PointsSlotAsWritten` | client/src/app/_components/TaskCard/index.tsx:81 | the slot as written: nothing for absent points, a bare 0 for points of 0, a badge otherwise; its properties are `ZeroPointsRenderBareZero` and `PointsSlotAgreesExceptZero` |
| `TaskCard.ZeroPointsRenderBareZero` | client/src/app/_components/TaskCard/index.tsx:81 | as written, points of 0 render a bare "0" in place of the badge |
| `TaskCard.PointsSlotOf` | client/src/app/_components/TaskCard/index.tsx:81 | a badge exactly for non-zero points, carrying them; never a bare number |
| `TaskCard.PointsSlotAgreesExceptZero` | client/src/app/_components/TaskCard/index.tsx:81 | the intended slot equals the written one exactly when points are not 0 |
| `TaskCard.ZeroPointsBoardShowsCardHides` | client/src/app/_components/TaskCard/index.tsx:81 | for points of 0 the board card shows the points and the task card shows no badge |
| `TaskCard.ShowDateSeparator` | client/src/app/_components/TaskCard/index.tsx:119-121 | the separator shows exactly when both dates are present |
| `TableView.StatusClass` | client/src/app/projects/TableView/index.tsx:13-26 | the class of a known status; the default class for an unknown or absent one |
| `TableView.PriorityClass` | client/src/app/projects/TableView/index.tsx:28-43 | the class among the five priorities, Backlog included; the default class otherwise |
| `TableView.StatusClassesDistinct` | client/src/app/projects/TableView/index.tsx:14-19 | the four statuses get four different classes |
| `TableView.PriorityClassesDistinct` | client/src/app/projects/TableView/index.tsx:29-35 | the five priorities get five different classes |
| `TableView.UserCell` | client/src/app/projects/TableView/index.tsx:45-52 | the username when it is non-empty, otherwise "Unassigned" |
| `TableView.DateCell` | client/src/app/projects/TableView/index.tsx:103 | the value when it is non-empty, otherwise "-" |

## Left out

- JSX, CSS and layout. Only the values the components compute are modelled: classes, icons,
  labels and which blocks show. Components that only render or glue are not part of this model:
  Modal, Header, Sidebar, ListView, the home page and the project page.
- react-dnd's drag-state tracking (`useDrag`/`useDrop` monitors, `isDragging`). This is library
  behaviour. Only the drop callback's effect and the hover class are modelled.
- RTK Query and the network. Fetching is modelled by taking the fetched list as input, and each
  mutation by an entry in a log. Cache invalidation and refetching are not modelled beyond
  `Board.SetStatus`. Also not modelled: `.unwrap()`, loading and error screens, toasts, and
  console output.
- Whether a create request succeeds is the `createSucceeds` parameter, because the server's
  reply is outside the model.
- Prisma queries in the search endpoint, including case-insensitive `contains` matching. They
  are the given `run` function. `Promise.all` parallelism and `$disconnect` are not modelled.
- Date parsing and formatting: `new Date`, `formatISO`, `isAfter`, `format` and
  `toLocaleDateString`. Record dates are integer timestamps. Form dates are compared through
  the given `Parsing.Parsers.instant`. Invalid Date and NaN are not modelled.
  - The timeline views cast missing dates straight through (TimelineView/index.tsx:24-25).
    So no task is excluded here, and a bar's start and end are exactly the record's optional
    timestamps.
- Floating point. `Math.round((elapsed / total) * 100)` and `(points / 10) * 100` are in exact
  integer arithmetic with half-up rounding, and points are integers.
  - `ProjectHeader.CalculateProgress`: where floating point rounds a ratio that lies on an
    exact half, the result may differ by one from the exact half-up value.
- `Number()`, `parseInt` and `isNaN`. "Is numeric" is the given `Parsing.Parsers.isNumeric`.
  The create payloads carry the validated text of the numeric fields, not the converted
  numbers.
- `SearchController.SearchTerm`: the length test counts characters of a Dafny string. It does
  not count UTF-16 code units, as JavaScript's `length` does.
- Object-prototype keys, such as a status named "toString". Such a status would find an
  inherited member in the lookups. The lookups here treat every key outside the tables as
  unknown.
- `localStorage`, `matchMedia` and the DOM class toggling in the dashboard wrapper. The
  persisted value is the plain field `GlobalSlice.storedDarkMode`, and the system preference is
  a constructor parameter. The wrapper rewrites the stored value from the flag after every
  change. The quirk of `ToggleDarkMode` is that the reducer itself stores the pre-toggle flag,
  and it is modelled as written.
- `Board.SetStatus`: the store's effect of a status update is an assumption, not code in the
  files modelled. `Board.DroppedTaskLandsInLane` depends on it.
- Integer width. Ids are unbounded integers, and `IntToDecimal` is exact decimal. JavaScript's
  `toString` switches to exponent form from 1e21, and `Number` loses precision above 2^53.
  `Text.DecimalInjective` and both `BarIdsDistinct` lemmas rely on exact ids. Database ids stay
  far below these limits.
- Amplify sign-out, the Next.js configuration, the project routes and the project controller
  are not part of this model.

## Findings

| source | as written | input that shows it | evidently intended | confidence | as-written member | corrected member |
|---|---|---|---|---|---|---|
| client/src/app/_components/TaskCard/index.tsx:81 | `{task.points && <badge/>}` evaluates to the number 0 when points are 0, and React renders that number | a task with `points: 0` | no badge and no text when the points are falsy, as for absent points (the board card shows "0 pts" instead) | high, not executed | `TaskCard.ZeroPointsRenderBareZero` | `TaskCard.PointsSlotAgreesExceptZero` |
