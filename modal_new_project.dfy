/**
 * The "Create New Project" form: name, description and the two dates. Its
 * validator requires a non-blank name and both dates, the end not before the
 * start; the create request carries the trimmed name and description, and a
 * successful create closes the modal, which resets the form.
 */
module ModalNewProject {
  import opened Wrappers
  import opened Text
  import opened Parsing

  datatype Field = Name | Description | StartDate | EndDate

  datatype FormData = FormData(name: string, description: string, startDate: string, endDate: string)

  const EmptyForm := FormData("", "", "", "")

  function Get(form: FormData, field: Field): string {
    match field
    case Name => form.name
    case Description => form.description
    case StartDate => form.startDate
    case EndDate => form.endDate
  }

  /** `{ ...prev, [id]: value }`. */
  function Set(form: FormData, field: Field, value: string): (r: FormData)
    ensures forall f :: Get(r, f) == if f == field then value else Get(form, f)
  {
    match field
    case Name => form.(name := value)
    case Description => form.(description := value)
    case StartDate => form.(startDate := value)
    case EndDate => form.(endDate := value)
  }

  const NameRequired := "Project name is required"
  const StartRequired := "Start date is required"
  const EndRequired := "End date is required"
  const EndBeforeStart := "End date must be after start date"

  /**
   * The name rule tests that the trimmed name is empty, which is the name
   * being blank (`Text.TrimEmptyIffBlank`). The end-date rules are an
   * if/else-if: a missing end date hides the ordering check.
   */
  function NameError(form: FormData): Option<string> {
    if IsBlank(form.name) then Some(NameRequired) else None
  }

  function StartError(form: FormData): Option<string> {
    if form.startDate == "" then Some(StartRequired) else None
  }

  function EndError(form: FormData, p: Parsers): Option<string> {
    if form.endDate == "" then Some(EndRequired)
    else if form.startDate != "" && IsAfter(p, form.startDate, form.endDate) then Some(EndBeforeStart)
    else None
  }

  /** The error map of a form: one entry per failed rule. */
  function Errors(form: FormData, p: Parsers): (e: map<Field, string>)
    ensures e.Keys <= {Name, StartDate, EndDate}
  {
    Put(Put(Put(map[], Name, NameError(form)), StartDate, StartError(form)), EndDate, EndError(form, p))
  }

  /** Each rule and its message. */
  lemma ErrorRules(form: FormData, p: Parsers, e: map<Field, string>)
    requires e == Errors(form, p)
    ensures Description !in e
    ensures Name in e <==> IsBlank(form.name)
    ensures Name in e ==> e[Name] == NameRequired
    ensures StartDate in e <==> form.startDate == ""
    ensures StartDate in e ==> e[StartDate] == StartRequired
    ensures EndDate in e <==> form.endDate == "" || (form.startDate != "" && IsAfter(p, form.startDate, form.endDate))
    ensures EndDate in e ==> e[EndDate] == if form.endDate == "" then EndRequired else EndBeforeStart
  {
  }

  /** The name rule is the source's `!name.trim()`. */
  lemma NameRuleIsTrim(form: FormData, p: Parsers)
    ensures Name in Errors(form, p) <==> Trim(form.name) == ""
  {
    TrimEmptyIffBlank(form.name);
  }

  /** A form the validator accepts. */
  predicate Acceptable(form: FormData, p: Parsers) {
    && !IsBlank(form.name)
    && form.startDate != "" && form.endDate != ""
    && !IsAfter(p, form.startDate, form.endDate)
  }

  /** The error map is empty exactly for an acceptable form. */
  lemma ErrorsEmptyIffAcceptable(form: FormData, p: Parsers)
    ensures Errors(form, p) == map[] <==> Acceptable(form, p)
  {
    var e := Errors(form, p);
    ErrorRules(form, p, e);
    if Acceptable(form, p) {
      assert e.Keys == {};
    }
  }

  /** The body of the create request; date conversion is not modelled. */
  datatype NewProject = NewProject(name: string, description: string, startDate: string, endDate: string)

  function Payload(form: FormData): (r: NewProject)
    ensures r.name == Trim(form.name) && r.description == Trim(form.description)
    ensures r.startDate == form.startDate && r.endDate == form.endDate
  {
    NewProject(Trim(form.name), Trim(form.description), form.startDate, form.endDate)
  }

  /**
   * What an error-free form sends: a non-empty name without surrounding
   * whitespace, both dates, the end not before the start.
   */
  lemma AcceptedPayloadWellFormed(form: FormData, p: Parsers)
    requires Errors(form, p) == map[]
    ensures var r := Payload(form);
            && r.name != "" && Trim(r.name) == r.name
            && Trim(r.description) == r.description
            && r.startDate != "" && r.endDate != ""
            && !IsAfter(p, r.startDate, r.endDate)
  {
    ErrorsEmptyIffAcceptable(form, p);
    TrimEmptyIffBlank(form.name);
    TrimIdempotent(form.name);
    TrimIdempotent(form.description);
  }

  class ProjectModal {
    const parsers: Parsers
    var formData: FormData
    var errors: map<Field, string>
    /** Create requests issued, oldest first. */
    var created: seq<NewProject>
    /** Calls of the `onClose` callback. */
    var closeRequests: nat

    constructor (parsers: Parsers)
      ensures this.parsers == parsers
      ensures formData == EmptyForm && errors == map[] && created == [] && closeRequests == 0
    {
      this.parsers := parsers;
      formData := EmptyForm;
      errors := map[];
      created := [];
      closeRequests := 0;
    }

    /** `handleChange`: sets the named field; blanks that field's message if it had one. */
    method HandleChange(name: Field, value: string)
      modifies this`formData, this`errors
      ensures formData == Set(old(formData), name, value)
      ensures errors.Keys == old(errors).Keys
      ensures forall f :: f in errors && f != name ==> errors[f] == old(errors)[f]
      ensures name in errors ==> errors[name] == ""
    {
      formData := Set(formData, name, value);
      if name in errors && errors[name] != "" {
        errors := errors[name := ""];
      }
    }

    /** `validateForm`: the three rules in the source's order. */
    method ValidateForm() returns (e: map<Field, string>)
      ensures e == Errors(formData, parsers)
    {
      var form := formData;
      var name, start, end: Option<string> := None, None, None;
      if IsBlank(form.name) { name := Some(NameRequired); }
      if form.startDate == "" { start := Some(StartRequired); }
      if form.endDate == "" {
        end := Some(EndRequired);
      } else if form.startDate != "" && IsAfter(parsers, form.startDate, form.endDate) {
        end := Some(EndBeforeStart);
      }
      assert name == NameError(form) && start == StartError(form) && end == EndError(form, parsers);
      e := Put(Put(Put(map[], Name, name), StartDate, start), EndDate, end);
    }

    /** `handleClose`: resets the form, clears the errors, calls `onClose`. */
    method HandleClose()
      modifies this`formData, this`errors, this`closeRequests
      ensures formData == EmptyForm && errors == map[] && closeRequests == old(closeRequests) + 1
    {
      formData := EmptyForm;
      errors := map[];
      closeRequests := closeRequests + 1;
    }

    /**
     * `handleSubmit`: with errors, shows them and sends nothing; otherwise sends
     * one create request and, if it succeeds, closes the modal. A failed create
     * leaves everything else as it was.
     */
    method HandleSubmit(createSucceeds: bool)
      modifies this`formData, this`errors, this`created, this`closeRequests
      ensures var v := Errors(old(formData), parsers);
              if v != map[] then
                errors == v && formData == old(formData) && created == old(created)
                && closeRequests == old(closeRequests)
              else
                created == old(created) + [Payload(old(formData))]
                && (createSucceeds ==> formData == EmptyForm && errors == map[] && closeRequests == old(closeRequests) + 1)
                && (!createSucceeds ==> formData == old(formData) && errors == old(errors)
                                        && closeRequests == old(closeRequests))
    {
      var validation := ValidateForm();
      if |validation.Keys| > 0 {
        errors := validation;
        return;
      }
      assert validation == map[];
      created := created + [Payload(formData)];
      if createSucceeds {
        HandleClose();
      }
    }
  }
}
