/**
 * The "Create New Task" form: its fields, the validator that fills an error
 * map rule by rule, the edit handler that clears a field's error, and the
 * submit handler that issues a create request only for an error-free form and
 * resets the form after a successful create.
 */
module ModalNewTask {
  import opened Wrappers
  import opened Text
  import opened Tasks
  import opened Parsing

  datatype Field = Title | Description | Status | Priority | Tags | StartDate | DueDate
                 | AuthorUserId | AssignedUserId | ProjectId

  datatype FormData = FormData(
    title: string, description: string, status: string, priority: string, tags: string,
    startDate: string, dueDate: string, authorUserId: string, assignedUserId: string, projectId: string)

  /** The form's initial and reset state. */
  const EmptyForm := FormData("", "", ToDo, Medium, "", "", "", "", "", "")

  function Get(form: FormData, field: Field): string {
    match field
    case Title => form.title
    case Description => form.description
    case Status => form.status
    case Priority => form.priority
    case Tags => form.tags
    case StartDate => form.startDate
    case DueDate => form.dueDate
    case AuthorUserId => form.authorUserId
    case AssignedUserId => form.assignedUserId
    case ProjectId => form.projectId
  }

  /** `{ ...prev, [name]: value }`. */
  function Set(form: FormData, field: Field, value: string): (r: FormData)
    ensures forall f :: Get(r, f) == if f == field then value else Get(form, f)
  {
    match field
    case Title => form.(title := value)
    case Description => form.(description := value)
    case Status => form.(status := value)
    case Priority => form.(priority := value)
    case Tags => form.(tags := value)
    case StartDate => form.(startDate := value)
    case DueDate => form.(dueDate := value)
    case AuthorUserId => form.(authorUserId := value)
    case AssignedUserId => form.(assignedUserId := value)
    case ProjectId => form.(projectId := value)
  }

  const TitleRequired := "Title is required"
  const AuthorRequired := "Author is required"
  const ProjectRequired := "Project ID is required"
  const DueBeforeStart := "Due date must be after start date"
  const AuthorNotNumber := "Author ID must be a number"
  const AssigneeNotNumber := "Assignee ID must be a number"
  const ProjectNotNumber := "Project ID must be a number"

  /** The fields the validator can complain about. */
  const CheckedFields: set<Field> := {Title, AuthorUserId, ProjectId, DueDate, AssignedUserId}

  /**
   * The message the validator leaves for one field, if any. `projectProp` is
   * the `id` prop (`None` for `null`). The title rule tests that the trimmed
   * title is empty, which is the title being blank (`Text.TrimEmptyIffBlank`).
   */
  function FieldError(form: FormData, projectProp: Option<string>, p: Parsers, field: Field): Option<string> {
    match field
    case Title => if IsBlank(form.title) then Some(TitleRequired) else None
    case AuthorUserId =>
      if form.authorUserId == "" then Some(AuthorRequired)
      else if !p.isNumeric(form.authorUserId) then Some(AuthorNotNumber)
      else None
    case ProjectId =>
      if form.projectId != "" && !p.isNumeric(form.projectId) then Some(ProjectNotNumber)
      else if projectProp.None? && form.projectId == "" then Some(ProjectRequired)
      else None
    case DueDate =>
      if form.startDate != "" && form.dueDate != "" && IsAfter(p, form.startDate, form.dueDate)
      then Some(DueBeforeStart) else None
    case AssignedUserId =>
      if form.assignedUserId != "" && !p.isNumeric(form.assignedUserId) then Some(AssigneeNotNumber) else None
    case _ => None
  }

  /** The message each checked field ends up with, if any. */
  datatype Messages = Messages(title: Option<string>, author: Option<string>, project: Option<string>,
                               due: Option<string>, assignee: Option<string>)

  function FormMessages(form: FormData, projectProp: Option<string>, p: Parsers): Messages {
    Messages(FieldError(form, projectProp, p, Title), FieldError(form, projectProp, p, AuthorUserId),
             FieldError(form, projectProp, p, ProjectId), FieldError(form, projectProp, p, DueDate),
             FieldError(form, projectProp, p, AssignedUserId))
  }

  /** The map holding the messages that are present. */
  function ToMap(m: Messages): (e: map<Field, string>)
    ensures e.Keys <= CheckedFields
  {
    Put(Put(Put(Put(Put(map[], Title, m.title), AuthorUserId, m.author), ProjectId, m.project), DueDate, m.due),
        AssignedUserId, m.assignee)
  }

  /** The error map of a form: one entry per failed rule. */
  function Errors(form: FormData, projectProp: Option<string>, p: Parsers): (e: map<Field, string>)
    ensures e.Keys <= CheckedFields
  {
    ToMap(FormMessages(form, projectProp, p))
  }

  /** Every checked field is in the error map exactly when its rule fails, with that rule's message. */
  lemma ErrorsFollowFieldErrors(form: FormData, projectProp: Option<string>, p: Parsers, f: Field)
    ensures var e := Errors(form, projectProp, p);
            && (f in e <==> FieldError(form, projectProp, p, f).Some?)
            && (f in e ==> e[f] == FieldError(form, projectProp, p, f).value)
  {
    var m := FormMessages(form, projectProp, p);
    var e1 := Put(map[], Title, m.title);
    var e2 := Put(e1, AuthorUserId, m.author);
    var e3 := Put(e2, ProjectId, m.project);
    var e4 := Put(e3, DueDate, m.due);
    assert Errors(form, projectProp, p) == Put(e4, AssignedUserId, m.assignee);
  }

  /** Each rule and its message, spelled out field by field. */
  lemma ErrorRules(form: FormData, projectProp: Option<string>, p: Parsers, e: map<Field, string>)
    requires e == Errors(form, projectProp, p)
    ensures Title in e <==> IsBlank(form.title)
    ensures Title in e ==> e[Title] == TitleRequired
    ensures AuthorUserId in e <==> form.authorUserId == "" || !p.isNumeric(form.authorUserId)
    ensures AuthorUserId in e ==> e[AuthorUserId] == if form.authorUserId == "" then AuthorRequired else AuthorNotNumber
    ensures ProjectId in e <==> (projectProp.None? && form.projectId == "")
                                || (form.projectId != "" && !p.isNumeric(form.projectId))
    ensures ProjectId in e ==> e[ProjectId] == if form.projectId == "" then ProjectRequired else ProjectNotNumber
    ensures DueDate in e <==> form.startDate != "" && form.dueDate != "" && IsAfter(p, form.startDate, form.dueDate)
    ensures DueDate in e ==> e[DueDate] == DueBeforeStart
    ensures AssignedUserId in e <==> form.assignedUserId != "" && !p.isNumeric(form.assignedUserId)
    ensures AssignedUserId in e ==> e[AssignedUserId] == AssigneeNotNumber
  {
    ErrorsFollowFieldErrors(form, projectProp, p, Title);
    ErrorsFollowFieldErrors(form, projectProp, p, AuthorUserId);
    ErrorsFollowFieldErrors(form, projectProp, p, ProjectId);
    ErrorsFollowFieldErrors(form, projectProp, p, DueDate);
    ErrorsFollowFieldErrors(form, projectProp, p, AssignedUserId);
  }

  /** The title rule is the source's `!title.trim()`. */
  lemma TitleRuleIsTrim(form: FormData, projectProp: Option<string>, p: Parsers)
    ensures Title in Errors(form, projectProp, p) <==> Trim(form.title) == ""
  {
    ErrorsFollowFieldErrors(form, projectProp, p, Title);
    TrimEmptyIffBlank(form.title);
  }

  /** A form the validator accepts, rule by rule. */
  predicate Acceptable(form: FormData, projectProp: Option<string>, p: Parsers) {
    && !IsBlank(form.title)
    && form.authorUserId != "" && p.isNumeric(form.authorUserId)
    && (projectProp.Some? || form.projectId != "")
    && (form.projectId == "" || p.isNumeric(form.projectId))
    && (form.assignedUserId == "" || p.isNumeric(form.assignedUserId))
    && !(form.startDate != "" && form.dueDate != "" && IsAfter(p, form.startDate, form.dueDate))
  }

  /** The error map is empty exactly for an acceptable form. */
  lemma ErrorsEmptyIffAcceptable(form: FormData, projectProp: Option<string>, p: Parsers)
    ensures Errors(form, projectProp, p) == map[] <==> Acceptable(form, projectProp, p)
  {
    var e := Errors(form, projectProp, p);
    ErrorRules(form, projectProp, p, e);
    if Acceptable(form, projectProp, p) {
      assert e.Keys == {};
    }
  }

  /** With an `id` prop an empty project field is accepted; without one it is required. */
  lemma ProjectFieldRequiredOnlyWithoutProp(form: FormData, p: Parsers, prop: string)
    requires form.projectId == ""
    ensures ProjectId !in Errors(form, Some(prop), p)
    ensures ProjectId in Errors(form, None, p)
  {
    ErrorsFollowFieldErrors(form, Some(prop), p, ProjectId);
    ErrorsFollowFieldErrors(form, None, p, ProjectId);
  }

  /** The body of the create request. Number and date conversions are not modelled. */
  datatype NewTask = NewTask(
    title: string, description: string, status: string, priority: string, tags: string,
    startDate: Option<string>, dueDate: Option<string>,
    authorUserId: string, assignedUserId: Option<string>, projectId: string)

  /** Empty optional fields are left undefined; the project comes from the prop when there is one. */
  function Payload(form: FormData, projectProp: Option<string>): (t: NewTask)
    ensures t.title == form.title && t.description == form.description && t.tags == form.tags
    ensures t.status == form.status && t.priority == form.priority && t.authorUserId == form.authorUserId
    ensures t.startDate.None? <==> form.startDate == ""
    ensures t.dueDate.None? <==> form.dueDate == ""
    ensures t.assignedUserId.None? <==> form.assignedUserId == ""
    ensures t.startDate.Some? ==> t.startDate.value == form.startDate
    ensures t.dueDate.Some? ==> t.dueDate.value == form.dueDate
    ensures t.assignedUserId.Some? ==> t.assignedUserId.value == form.assignedUserId
    ensures t.projectId == projectProp.GetOr(form.projectId)
  {
    NewTask(form.title, form.description, form.status, form.priority, form.tags,
            if form.startDate != "" then Some(form.startDate) else None,
            if form.dueDate != "" then Some(form.dueDate) else None,
            form.authorUserId,
            if form.assignedUserId != "" then Some(form.assignedUserId) else None,
            if projectProp.Some? then projectProp.value else form.projectId)
  }

  /** Whatever an error-free form sends has a numeric author, a numeric assignee if any, and ordered dates. */
  lemma AcceptedPayloadWellFormed(form: FormData, projectProp: Option<string>, p: Parsers)
    requires Errors(form, projectProp, p) == map[]
    ensures var t := Payload(form, projectProp);
            && !IsBlank(t.title)
            && t.authorUserId != "" && p.isNumeric(t.authorUserId)
            && (t.assignedUserId.Some? ==> p.isNumeric(t.assignedUserId.value))
            && (projectProp.None? ==> t.projectId != "" && p.isNumeric(t.projectId))
            && (t.startDate.Some? && t.dueDate.Some? ==> !IsAfter(p, t.startDate.value, t.dueDate.value))
  {
    ErrorsEmptyIffAcceptable(form, projectProp, p);
  }

  /** The modal's state: the form, its errors, and what it has asked of the outside. */
  class TaskModal {
    const projectProp: Option<string>
    const parsers: Parsers
    var formData: FormData
    var errors: map<Field, string>
    /** Create requests issued, oldest first. */
    var created: seq<NewTask>
    /** Calls of the `onClose` callback. */
    var closeRequests: nat

    constructor (projectProp: Option<string>, parsers: Parsers)
      ensures this.projectProp == projectProp && this.parsers == parsers
      ensures formData == EmptyForm && errors == map[] && created == [] && closeRequests == 0
    {
      this.projectProp := projectProp;
      this.parsers := parsers;
      formData := EmptyForm;
      errors := map[];
      created := [];
      closeRequests := 0;
    }

    /** `handleChange`: sets the named field; blanks that field's message if it had one. */
    method HandleChange(name: Field, value: string)
      modifies this`formData, this`errors
      ensures formData == Set(old(formData), name, value)
      ensures errors.Keys == old(errors).Keys
      ensures forall f :: f in errors && f != name ==> errors[f] == old(errors)[f]
      ensures name in errors ==> errors[name] == ""
    {
      formData := Set(formData, name, value);
      if name in errors && errors[name] != "" {
        errors := errors[name := ""];
      }
    }

    /**
     * `validateForm`: the rules run in the source's order, a later rule for a
     * field overriding an earlier one; the map holds each field's last message.
     */
    method ValidateForm() returns (e: map<Field, string>)
      ensures e == Errors(formData, projectProp, parsers)
    {
      var form, p := formData, parsers;
      var title, author, project, due, assignee: Option<string> := None, None, None, None, None;
      if IsBlank(form.title) { title := Some(TitleRequired); }
      if form.authorUserId == "" { author := Some(AuthorRequired); }
      if projectProp.None? && form.projectId == "" { project := Some(ProjectRequired); }
      if form.startDate != "" && form.dueDate != "" {
        if IsAfter(p, form.startDate, form.dueDate) { due := Some(DueBeforeStart); }
      }
      if form.authorUserId != "" && !p.isNumeric(form.authorUserId) { author := Some(AuthorNotNumber); }
      if form.assignedUserId != "" && !p.isNumeric(form.assignedUserId) { assignee := Some(AssigneeNotNumber); }
      if form.projectId != "" && !p.isNumeric(form.projectId) { project := Some(ProjectNotNumber); }
      var messages := Messages(title, author, project, due, assignee);
      assert messages == FormMessages(form, projectProp, p);
      e := ToMap(messages);
    }

    /**
     * `handleSubmit`: with errors, shows them and sends nothing; otherwise sends
     * one create request and, if it succeeds, resets the form, clears the errors
     * and closes the modal. A failed create leaves everything else as it was.
     */
    method HandleSubmit(createSucceeds: bool)
      modifies this`formData, this`errors, this`created, this`closeRequests
      ensures var v := Errors(old(formData), projectProp, parsers);
              if v != map[] then
                errors == v && formData == old(formData) && created == old(created)
                && closeRequests == old(closeRequests)
              else
                created == old(created) + [Payload(old(formData), projectProp)]
                && (createSucceeds ==> formData == EmptyForm && errors == map[] && closeRequests == old(closeRequests) + 1)
                && (!createSucceeds ==> formData == old(formData) && errors == old(errors)
                                        && closeRequests == old(closeRequests))
    {
      var validation := ValidateForm();
      if |validation.Keys| > 0 {
        errors := validation;
        return;
      }
      assert validation == map[];
      created := created + [Payload(formData, projectProp)];
      if createSucceeds {
        formData := EmptyForm;
        errors := map[];
        closeRequests := closeRequests + 1;
      }
    }
  }
}
