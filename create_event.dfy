/**
 * The organizer's event-creation form (dashboard/organizer/events/create/
 * page.tsx): the form record and its one-key `update`, the two-step
 * `validate`, and the request body `handleSubmit` builds and posts. The
 * HTTP call is not modelled: its outcome is passed in.
 */
module CreateEvent {
  import opened Optional

  datatype EventStatus = DRAFT | PUBLISHED

  /** The `form` state. */
  datatype EventForm = EventForm(
    title: string,
    theme: string,
    description: string,
    location: string,
    startDate: string,
    endDate: string,
    maxParticipants: string,
    registrationDeadline: string,
    isPaid: bool,
    cfpEnabled: bool,
    cfpStart: string,
    cfpDeadline: string,
    status: EventStatus)

  const InitialForm := EventForm("", "", "", "", "", "", "", "", false, false, "", "", DRAFT)

  datatype FormKey =
    | Title | Theme | Description | Location | StartDate | EndDate
    | MaxParticipants | RegistrationDeadline | IsPaid | CfpEnabled
    | CfpStart | CfpDeadline | Status

  /** A value of one of the form's field types. */
  datatype FieldValue = Text(text: string) | Flag(flag: bool) | StatusValue(status: EventStatus)

  /** `value: (typeof form)[K]`: the value has the type of the key's field. */
  predicate Fits(key: FormKey, value: FieldValue) {
    match key
    case IsPaid | CfpEnabled => value.Flag?
    case Status => value.StatusValue?
    case _ => value.Text?
  }

  /** `form[key]`. */
  function Get(form: EventForm, key: FormKey): (v: FieldValue)
    ensures Fits(key, v)
  {
    match key
    case Title => Text(form.title)
    case Theme => Text(form.theme)
    case Description => Text(form.description)
    case Location => Text(form.location)
    case StartDate => Text(form.startDate)
    case EndDate => Text(form.endDate)
    case MaxParticipants => Text(form.maxParticipants)
    case RegistrationDeadline => Text(form.registrationDeadline)
    case IsPaid => Flag(form.isPaid)
    case CfpEnabled => Flag(form.cfpEnabled)
    case CfpStart => Text(form.cfpStart)
    case CfpDeadline => Text(form.cfpDeadline)
    case Status => StatusValue(form.status)
  }

  /** `{ ...prev, [key]: value }`. */
  function With(form: EventForm, key: FormKey, value: FieldValue): (r: EventForm)
    requires Fits(key, value)
  {
    match key
    case Title => form.(title := value.text)
    case Theme => form.(theme := value.text)
    case Description => form.(description := value.text)
    case Location => form.(location := value.text)
    case StartDate => form.(startDate := value.text)
    case EndDate => form.(endDate := value.text)
    case MaxParticipants => form.(maxParticipants := value.text)
    case RegistrationDeadline => form.(registrationDeadline := value.text)
    case IsPaid => form.(isPaid := value.flag)
    case CfpEnabled => form.(cfpEnabled := value.flag)
    case CfpStart => form.(cfpStart := value.text)
    case CfpDeadline => form.(cfpDeadline := value.text)
    case Status => form.(status := value.status)
  }

  /** The update stores the value under its key and leaves every other key as it was. */
  lemma WithSpec(form: EventForm, key: FormKey, value: FieldValue)
    requires Fits(key, value)
    ensures Get(With(form, key, value), key) == value
    ensures forall k | k != key :: Get(With(form, key, value), k) == Get(form, k)
  {
  }

  const RequiredMessage := "Please fill all required fields."
  const CfpMessage := "CFP dates are required when CFP is enabled."

  /** `validate()`: the alert it raises, or `None` when it returns true. */
  function Validate(form: EventForm): (alert: Option<string>)
    ensures alert == None <==>
      && form.title != "" && form.theme != "" && form.startDate != "" && form.endDate != ""
      && (form.cfpEnabled ==> form.cfpStart != "" && form.cfpDeadline != "")
    ensures alert == Some(RequiredMessage) <==>
      form.title == "" || form.theme == "" || form.startDate == "" || form.endDate == ""
    ensures alert.Some? ==> alert.value in {RequiredMessage, CfpMessage}
  {
    if form.title == "" || form.theme == "" || form.startDate == "" || form.endDate == "" then
      Some(RequiredMessage)
    else if form.cfpEnabled && (form.cfpStart == "" || form.cfpDeadline == "") then
      Some(CfpMessage)
    else
      None
  }

  /** With the call for papers disabled, its dates play no part in validation. */
  lemma CfpDatesIgnoredWhenDisabled(form: EventForm, start: string, deadline: string)
    requires !form.cfpEnabled
    ensures Validate(form.(cfpStart := start, cfpDeadline := deadline)) == Validate(form)
  {
  }

  /** `Number(text)`: the conversion of the field text, which this model does not evaluate. */
  datatype Numeric = NumberOf(text: string)

  /** The request body posted to `/events`; `None` is JSON `null`. */
  datatype Payload = Payload(
    title: string,
    theme: string,
    description: string,
    location: string,
    startDate: string,
    endDate: string,
    maxParticipants: Option<Numeric>,
    registrationDeadline: Option<string>,
    isPaid: bool,
    cfpEnabled: bool,
    cfpStart: Option<string>,
    cfpDeadline: Option<string>,
    status: EventStatus)

  /** The `payload` object of `handleSubmit`. */
  function BuildPayload(form: EventForm): (p: Payload)
    ensures p.maxParticipants == None <==> form.maxParticipants == ""
    ensures p.registrationDeadline == None <==> form.registrationDeadline == ""
    ensures p.cfpStart == None <==> !form.cfpEnabled
    ensures p.cfpDeadline == None <==> !form.cfpEnabled
  {
    Payload(
      form.title, form.theme, form.description, form.location,
      form.startDate, form.endDate,
      if form.maxParticipants != "" then Some(NumberOf(form.maxParticipants)) else None,
      if form.registrationDeadline != "" then Some(form.registrationDeadline) else None,
      form.isPaid, form.cfpEnabled,
      if form.cfpEnabled then Some(form.cfpStart) else None,
      if form.cfpEnabled then Some(form.cfpDeadline) else None,
      form.status)
  }

  /** The form a payload was built from, reading `null` back as the empty field. */
  function FormOf(p: Payload): (form: EventForm)
    ensures form.cfpEnabled == p.cfpEnabled
  {
    EventForm(
      p.title, p.theme, p.description, p.location, p.startDate, p.endDate,
      if p.maxParticipants.Some? then p.maxParticipants.value.text else "",
      p.registrationDeadline.GetOr(""),
      p.isPaid, p.cfpEnabled,
      p.cfpStart.GetOr(""), p.cfpDeadline.GetOr(""),
      p.status)
  }

  /**
   * The payload keeps every field of the form except the dates of a
   * disabled call for papers, which it drops.
   */
  lemma PayloadRoundTrip(form: EventForm)
    ensures form.cfpEnabled ==> FormOf(BuildPayload(form)) == form
    ensures !form.cfpEnabled ==> FormOf(BuildPayload(form)) == form.(cfpStart := "", cfpDeadline := "")
  {
  }

  /** Two forms give the same payload exactly when they agree on everything but the dates of a disabled call for papers. */
  lemma SamePayload(f: EventForm, g: EventForm)
    ensures BuildPayload(f) == BuildPayload(g) <==>
      if f.cfpEnabled then f == g
      else f.(cfpStart := "", cfpDeadline := "") == g.(cfpStart := "", cfpDeadline := "")
  {
    PayloadRoundTrip(f);
    PayloadRoundTrip(g);
  }

  /** How the HTTP call ends: it resolves, or it throws an `Error` with its message, or throws some other value. */
  datatype ApiOutcome = Resolved | ThrewError(message: string) | ThrewOther

  /** The page's form state and its `loading` flag. */
  class EventCreation {
    var form: EventForm
    var loading: bool

    /** An empty draft, not loading. */
    constructor ()
      ensures form == InitialForm && !loading
    {
      form := InitialForm;
      loading := false;
    }

    /** `update(key, value)`: one key of the form changes. */
    method Update(key: FormKey, value: FieldValue)
      requires Fits(key, value)
      modifies this`form
      ensures form == With(old(form), key, value)
    {
      form := With(form, key, value);
    }

    /**
     * `handleSubmit()` with the HTTP outcome passed in: a failed validation
     * alerts and posts nothing; otherwise the payload is posted, a resolved
     * call navigates to the events list and a thrown one alerts its message
     * (or the generic one); `loading` is false again afterwards.
     */
    method HandleSubmit(outcome: ApiOutcome) returns (posted: Option<Payload>, alert: Option<string>, navigate: Option<string>)
      requires !loading
      modifies this`loading
      ensures !loading
      ensures Validate(form).Some? ==> posted == None && alert == Validate(form) && navigate == None
      ensures Validate(form).None? ==> posted == Some(BuildPayload(form))
      ensures Validate(form).None? && outcome.Resolved? ==> alert == None && navigate == Some("/dashboard/events")
      ensures Validate(form).None? && outcome.ThrewError? ==> alert == Some(outcome.message) && navigate == None
      ensures Validate(form).None? && outcome.ThrewOther? ==> alert == Some("Failed to create event") && navigate == None
    {
      var invalid := Validate(form);
      if invalid.Some? {
        return None, invalid, None;
      }
      loading := true;
      var payload := BuildPayload(form);
      posted := Some(payload);
      match outcome {
        case Resolved =>
          alert, navigate := None, Some("/dashboard/events");
        case ThrewError(message) =>
          alert, navigate := Some(message), None;
        case ThrewOther =>
          alert, navigate := Some("Failed to create event"), None;
      }
      loading := false;
    }
  }
}
