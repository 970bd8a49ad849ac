/**
 * The client side of the contact pipeline: the state of the `ContactForm`
 * component and its two handlers. `handleChange` merges one input into the
 * draft; `handleSubmit` runs the two local checks, posts the draft once and
 * settles on success or error. The network call is not made here: its
 * outcome is an input, and the request the form would send is an output.
 */
module ClientForm {
  import opened Options
  import opened JsStrings
  import opened EmailPattern
  import opened Submission

  /** `submitStatus`, which picks the banner the form shows. */
  datatype Status = Idle | Success | Error

  /** How the `fetch` and the `response.json()` that follows it ended: a
      2xx response; another status whose JSON body may carry an `error`
      text; or an exception from either call (no connection, or a body
      that is not JSON). */
  datatype FetchOutcome = Ok | NotOk(error: Option<string>) | Threw

  const FillInAllFields: string := "Please fill in all fields"
  const EnterValidEmail: string := "Please enter a valid email address"
  const SendFailed: string := "Failed to send message"
  const NetworkError: string :=
    "Network error. Please check your connection and try again, or contact me directly at " + ContactAddress

  /** The four pieces of component state. */
  datatype FormState = FormState(formData: Fields, isSubmitting: bool, submitStatus: Status, errorMessage: string)
  {
    /** Between two events the form is not submitting, and it carries an
        error text exactly when it shows the error banner. */
    predicate Valid() {
      !isSubmitting && (submitStatus == Error <==> errorMessage != "")
    }
  }

  /** The state `useState` starts from. */
  const InitialState: FormState := FormState(EmptyFields, false, Idle, "")

  /** What one submission does: the state it leaves and the body it posts,
      if it posts at all. */
  datatype SubmitEffect = SubmitEffect(after: FormState, request: Option<Fields>)

  /** The first guard: some field is empty once trimmed, that is, holds
      nothing but white space. */
  predicate AnyBlank(d: Fields)
    ensures AnyBlank(d) <==>
      AllSpace(d.name) || AllSpace(d.email) || AllSpace(d.subject) || AllSpace(d.message)
  {
    BlankIffAllSpace(d.name);
    BlankIffAllSpace(d.email);
    BlankIffAllSpace(d.subject);
    BlankIffAllSpace(d.message);
    IsBlank(d.name) || IsBlank(d.email) || IsBlank(d.subject) || IsBlank(d.message)
  }

  /** Both guards pass; note that the e-mail is tested untrimmed, so an
      address that passes has no white space at all and no field is "". */
  predicate PassesLocalChecks(d: Fields)
    ensures PassesLocalChecks(d) ==> NoSpace(d.email)
    ensures PassesLocalChecks(d) ==> d.name != "" && d.email != "" && d.subject != "" && d.message != ""
  {
    !AnyBlank(d) && IsValidEmail(d.email)
  }

  /** `data.error || "Failed to send message"`. */
  function ServerErrorText(error: Option<string>): (r: string)
    ensures r != ""
    ensures error.Some? && error.value != "" ==> r == error.value
    ensures !(error.Some? && error.value != "") ==> r == SendFailed
  {
    if error.Some? && error.value != "" then error.value else SendFailed
  }

  /** The effect of `handleSubmit` on a draft, given how the network call
      ends; the earlier status and message play no part, so resubmitting
      after an error runs the same flow. */
  function AfterSubmit(draft: Fields, outcome: FetchOutcome): (r: SubmitEffect)
    ensures !r.after.isSubmitting && r.after.Valid()
    ensures r.after.submitStatus != Idle
    ensures r.request.Some? <==> PassesLocalChecks(draft)
    ensures r.request.Some? ==> r.request.value == draft
    ensures r.after.submitStatus == Success <==> PassesLocalChecks(draft) && outcome.Ok?
    ensures r.after.formData == if r.after.submitStatus == Success then EmptyFields else draft
  {
    if AnyBlank(draft) then
      SubmitEffect(FormState(draft, false, Error, FillInAllFields), None)
    else if !IsValidEmail(draft.email) then
      SubmitEffect(FormState(draft, false, Error, EnterValidEmail), None)
    else
      match outcome
      case Ok => SubmitEffect(FormState(EmptyFields, false, Success, ""), Some(draft))
      case NotOk(error) => SubmitEffect(FormState(draft, false, Error, ServerErrorText(error)), Some(draft))
      case Threw => SubmitEffect(FormState(draft, false, Error, NetworkError), Some(draft))
  }

  /** A field that is empty after trimming stops the submission before any
      request, whatever the e-mail and the network would have done. */
  lemma BlankFieldRejected(draft: Fields, id: FieldId, outcome: FetchOutcome)
    requires IsBlank(draft.Get(id))
    ensures AfterSubmit(draft, outcome) == SubmitEffect(FormState(draft, false, Error, FillInAllFields), None)
  {
  }

  /** A field holding only white space counts as blank. */
  lemma WhitespaceFieldRejected(draft: Fields, id: FieldId, outcome: FetchOutcome)
    requires AllSpace(draft.Get(id))
    ensures AfterSubmit(draft, outcome).after.errorMessage == FillInAllFields
    ensures AfterSubmit(draft, outcome).request == None
  {
    BlankIffAllSpace(draft.Get(id));
  }

  /** With no blank field, a bad e-mail stops the submission before any
      request and keeps the draft. */
  lemma InvalidEmailRejected(draft: Fields, outcome: FetchOutcome)
    requires !AnyBlank(draft) && !IsValidEmail(draft.email)
    ensures AfterSubmit(draft, outcome) == SubmitEffect(FormState(draft, false, Error, EnterValidEmail), None)
  {
  }

  /** The e-mail is tested as typed: a leading or trailing blank around an
      otherwise valid address fails the pattern, not the blank check. */
  lemma UntrimmedEmailRejected(draft: Fields, outcome: FetchOutcome)
    requires !AnyBlank(draft) && |draft.email| > 0
    requires IsSpace(draft.email[0]) || IsSpace(draft.email[|draft.email| - 1])
    ensures AfterSubmit(draft, outcome).after == FormState(draft, false, Error, EnterValidEmail)
    ensures AfterSubmit(draft, outcome).request == None
  {
    if IsValidEmail(draft.email) {
      ValidEmailHasNoSpace(draft.email);
    }
  }

  /** A 2xx response clears the draft and leaves the message reset. */
  lemma OkClearsDraft(draft: Fields)
    requires PassesLocalChecks(draft)
    ensures AfterSubmit(draft, Ok) == SubmitEffect(FormState(EmptyFields, false, Success, ""), Some(draft))
  {
  }

  /** Another status shows the server's text, or the fallback when it sent
      none, and keeps the draft. */
  lemma NotOkKeepsDraft(draft: Fields, error: Option<string>)
    requires PassesLocalChecks(draft)
    ensures AfterSubmit(draft, NotOk(error)).after == FormState(draft, false, Error, ServerErrorText(error))
  {
  }

  /** A thrown request or unreadable reply shows the network message, which
      names the contact address, and keeps the draft. */
  lemma ThrewKeepsDraft(draft: Fields)
    requires PassesLocalChecks(draft)
    ensures AfterSubmit(draft, Threw).after == FormState(draft, false, Error, NetworkError)
    ensures Contains(AfterSubmit(draft, Threw).after.errorMessage, ContactAddress)
  {
    EndsWithContains("Network error. Please check your connection and try again, or contact me directly at ", ContactAddress);
  }

  /** The `ContactForm` component's state and handlers. */
  class ContactForm {
    var formData: Fields
    var isSubmitting: bool
    var submitStatus: Status
    var errorMessage: string

    /** The component state as one value. */
    function State(): FormState
      reads this
    {
      FormState(formData, isSubmitting, submitStatus, errorMessage)
    }

    constructor ()
      ensures State() == InitialState && State().Valid()
    {
      formData := EmptyFields;
      isSubmitting := false;
      submitStatus := Idle;
      errorMessage := "";
    }

    /** `handleChange`: the input with id `id` now holds `value`; the other
        fields and the rest of the state are untouched. */
    method HandleChange(id: FieldId, value: string)
      modifies this
      ensures formData.Get(id) == value
      ensures forall other :: other != id ==> formData.Get(other) == old(formData.Get(other))
      ensures isSubmitting == old(isSubmitting) && submitStatus == old(submitStatus)
      ensures errorMessage == old(errorMessage)
    {
      formData := formData.With(id, value);
    }

    /** `handleSubmit`, with the outcome of `fetch` and `response.json()`
        supplied. Returns the body it posts, if it posts. */
    method HandleSubmit(outcome: FetchOutcome) returns (request: Option<Fields>)
      modifies this
      ensures State() == AfterSubmit(old(formData), outcome).after
      ensures request == AfterSubmit(old(formData), outcome).request
      ensures !isSubmitting && State().Valid()
    {
      isSubmitting := true;
      submitStatus := Idle;
      errorMessage := "";

      if AnyBlank(formData) {
        submitStatus := Error;
        errorMessage := FillInAllFields;
        isSubmitting := false;
        return None;
      }

      if !IsValidEmail(formData.email) {
        submitStatus := Error;
        errorMessage := EnterValidEmail;
        isSubmitting := false;
        return None;
      }

      request := Some(formData);
      match outcome {
        case Ok =>
          submitStatus := Success;
          formData := EmptyFields;
        case NotOk(error) =>
          submitStatus := Error;
          errorMessage := ServerErrorText(error);
        case Threw =>
          submitStatus := Error;
          errorMessage := NetworkError;
      }
      // the `finally` block
      isSubmitting := false;
    }
  }
}
