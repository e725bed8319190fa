/** The job-card request form: fifteen text fields, a submit that posts the
    card as a pending request stamped with the submission time and the
    requester's username, and the snackbar that reports the outcome. On success
    the form is cleared; on failure it is kept as typed.

    Submitting is split at the `await`: `BeginSubmit` closes the notification
    and yields the request to send, `FinishSubmit` takes the server's reply.
    The browser only lets the form submit when every `required` text input is
    filled, and the "Job Card ID" input is `disabled`, so no change event ever
    reaches that field. */
module RequestForm {
  import opened JsValues
  import opened JobCards
  import opened Notifications

  /** The names of the form's fields, in the order the initial state lists them. */
  const FormFields: seq<string> := [
    "date", "department", "relatedToProject", "toBeSignedOffBy", "clientBrief",
    "fileLocation", "estimatedHours", "startTime", "dueDate", "title",
    "notes", "endTime", "hrs", "contactNo", "jobCardId"]

  /** The text inputs marked `required`; the browser refuses to submit the form
      while any of them is empty. */
  const RequiredInputs: seq<string> := ["date", "toBeSignedOffBy", "clientBrief", "notes"]

  /** The inputs that can fire a change event: every field but the disabled
      "Job Card ID". */
  const EnabledInputs: seq<string> := FormFields[..14]

  /** The browser's constraint check on submit: no required input is empty. */
  predicate RequiredFilled(form: Record)
  {
    forall k :: k in RequiredInputs ==> Get(form, k) != Str("")
  }

  /** The initial and the reset form: every field holds the empty string. */
  function EmptyForm(): (f: Record)
    ensures forall k :: k in f <==> k in FormFields
    ensures forall k :: k in f ==> f[k] == Str("")
  {
    map k | k in FormFields :: Str("")
  }

  /** `handleDetailsChange`: the input named `name` takes `value`; every other
      field keeps its own. */
  function ChangeField(form: Record, name: string, value: string): (f: Record)
    ensures Get(f, name) == Str(value)
    ensures forall k :: k != name ==> Get(f, k) == Get(form, k)
    ensures f.Keys == form.Keys + {name}
  {
    form[name := Str(value)]
  }

  /** Typing into a field and then typing its previous text back restores the
      form, when the field already existed. */
  lemma ChangeFieldUndo(form: Record, name: string, value: string)
    requires name in form && form[name].Str?
    ensures ChangeField(ChangeField(form, name, value), name, form[name].s) == form
  {
  }

  /** The text the "Job Card ID" chip and input show: the typed id, or "2950"
      while the field is empty. */
  function DisplayedJobCardId(form: Record): (id: Value)
    ensures Truthy(Get(form, "jobCardId")) ==> id == Get(form, "jobCardId")
    ensures !Truthy(Get(form, "jobCardId")) ==> id == Str("2950")
  {
    Or(Get(form, "jobCardId"), Str("2950"))
  }

  /** The body posted to "/api/requests": the form's fields, overridden by
      `status: "pending"`, the submission time `stamp` and `requestedBy`. */
  function SubmissionPayload(form: Record, user: Record, stamp: string): (p: Record)
    ensures Get(p, "status") == Str("pending")
    ensures Get(p, "dateSubmitted") == Str(stamp)
    ensures Get(p, "requestedBy") == Get(user, "username")
    ensures forall k :: k !in {"status", "dateSubmitted", "requestedBy"} ==> Get(p, k) == Get(form, k)
    ensures p.Keys == form.Keys + {"status", "dateSubmitted", "requestedBy"}
  {
    form["status" := Str("pending")]["dateSubmitted" := Str(stamp)]["requestedBy" := Get(user, "username")]
  }

  /** Every submitted card is pending, so the dashboards count it among
      `inProcessJobs` and the approval queue of its department can take it up;
      and the weekly, monthly and yearly counts date it by its submission
      stamp, whatever the form's own "date" field says. */
  lemma SubmittedCardIsPending(form: Record, user: Record, stamp: string, cal: Calendar)
    requires stamp != ""
    ensures IsPending(SubmissionPayload(form, user, stamp))
    ensures SubmitMoment(SubmissionPayload(form, user, stamp), cal) == cal.parse(stamp)
  {
  }

  /** The empty form cannot be submitted: the browser stops it before
      `handleSubmit` runs, so a cleared form is never posted again. */
  lemma EmptyFormIsBlocked()
    ensures !RequiredFilled(EmptyForm())
  {
    assert "date" in RequiredInputs && "date" in FormFields;
  }

  /** Changing an enabled input never touches `jobCardId`. */
  lemma ChangeKeepsJobCardId(form: Record, name: string, value: string)
    requires name in EnabledInputs
    ensures Get(ChangeField(form, name, value), "jobCardId") == Get(form, "jobCardId")
  {
    assert forall i :: 0 <= i < 14 ==> EnabledInputs[i] != "jobCardId";
  }

  /** Whenever `jobCardId` is empty, which is always since its input is disabled,
      the chip shows "2950" but the card posted carries an empty `jobCardId`:
      the shown id is a display default only. */
  lemma DisplayedIdIsNotSubmitted(form: Record, user: Record, stamp: string)
    requires Get(form, "jobCardId") == Str("")
    ensures DisplayedJobCardId(form) == Str("2950")
    ensures Get(SubmissionPayload(form, user, stamp), "jobCardId") == Str("")
  {
  }

  /** The form starts, and is reset, with an empty `jobCardId`. */
  lemma EmptyFormHasNoJobCardId()
    ensures Get(EmptyForm(), "jobCardId") == Str("")
  {
    assert "jobCardId" in FormFields;
  }

  /** The request a submit sends. */
  datatype SubmitCall = SubmitCall(url: string, body: Record)

  /** The server's answer: accepted, or a failure with its message, if any. */
  datatype SubmitReply = Submitted | SubmitFailed(serverMessage: Option<string>)

  datatype FormState = FormState(requestDetails: Record, notification: Notification)

  /** The first half of a submit: when the browser lets it through,
      `handleSubmit` hides the notification; otherwise nothing happens. */
  function AfterBeginSubmit(s: FormState): (t: FormState)
    ensures !RequiredFilled(s.requestDetails) ==> t == s
    ensures RequiredFilled(s.requestDetails) ==> !t.notification.open
    ensures t.requestDetails == s.requestDetails
    ensures t.notification.(open := s.notification.open) == s.notification
  {
    if RequiredFilled(s.requestDetails) then s.(notification := s.notification.(open := false)) else s
  }

  /** The second half of `handleSubmit`. Success clears the form and reports
      "Job card submitted successfully!"; failure keeps the form as typed and
      reports the server's message, or "Failed to submit job card.". */
  function AfterFinishSubmit(s: FormState, reply: SubmitReply): (t: FormState)
    ensures t.notification.open
    ensures reply.Submitted? <==> t.notification.severity == Success
    ensures reply.Submitted? ==>
              t == FormState(EmptyForm(), Notification(true, "Job card submitted successfully!", Success))
    ensures reply.SubmitFailed? ==>
              t == FormState(s.requestDetails,
                             Notification(true, ErrorMessage(reply.serverMessage, "Failed to submit job card."), Error))
  {
    match reply
    case Submitted => FormState(EmptyForm(), Notification(true, "Job card submitted successfully!", Success))
    case SubmitFailed(message) =>
      FormState(s.requestDetails, Notification(true, ErrorMessage(message, "Failed to submit job card."), Error))
  }

  /** A failed submit leaves the typed form, so submitting again sends the same
      card (with the new time stamp). */
  lemma FailedSubmitKeepsPayload(s: FormState, message: Option<string>, user: Record, stamp: string)
    ensures var t := AfterFinishSubmit(AfterBeginSubmit(s), SubmitFailed(message));
      SubmissionPayload(t.requestDetails, user, stamp) == SubmissionPayload(s.requestDetails, user, stamp)
  {
  }

  class RequestScreen {
    var requestDetails: Record
    var notification: Notification

    function State(): FormState
      reads this
    {
      FormState(requestDetails, notification)
    }

    /** The disabled "Job Card ID" input keeps its field empty. */
    predicate Valid()
      reads this
    {
      Get(requestDetails, "jobCardId") == Str("")
    }

    constructor ()
      ensures Valid()
      ensures State() == FormState(EmptyForm(), Hidden())
    {
      requestDetails := EmptyForm();
      notification := Hidden();
      EmptyFormHasNoJobCardId();
    }

    /** A change event from the enabled input `name`. */
    method DetailsChange(name: string, value: string)
      requires Valid() && name in EnabledInputs
      modifies this
      ensures Valid()
      ensures State() == old(State()).(requestDetails := ChangeField(old(requestDetails), name, value))
    {
      ChangeKeepsJobCardId(requestDetails, name, value);
      requestDetails := ChangeField(requestDetails, name, value);
    }

    /** Submitting, up to the request: `user` is the signed-in user and `stamp`
      the current time as an ISO string. `None` when the browser blocks the
      submit because a required input is empty. */
    method BeginSubmit(user: Record, stamp: string) returns (call: Option<SubmitCall>)
      requires Valid()
      modifies this
      ensures Valid()
      ensures call.Some? <==> RequiredFilled(old(requestDetails))
      ensures call.Some? ==> call.value == SubmitCall("/api/requests", SubmissionPayload(old(requestDetails), user, stamp))
      ensures call.Some? ==> Get(call.value.body, "jobCardId") == Str("")
      ensures State() == AfterBeginSubmit(old(State()))
    {
      if !RequiredFilled(requestDetails) {
        return None;
      }
      notification := notification.(open := false);
      call := Some(SubmitCall("/api/requests", SubmissionPayload(requestDetails, user, stamp)));
    }

    method FinishSubmit(reply: SubmitReply)
      requires Valid()
      modifies this
      ensures Valid()
      ensures State() == AfterFinishSubmit(old(State()), reply)
    {
      EmptyFormHasNoJobCardId();
      match reply
      case Submitted =>
        notification := Notification(true, "Job card submitted successfully!", Success);
        requestDetails := EmptyForm();
      case SubmitFailed(message) =>
        notification := Notification(true, ErrorMessage(message, "Failed to submit job card."), Error);
    }

    method CloseNotification()
      requires Valid()
      modifies this
      ensures Valid()
      ensures State() == old(State()).(notification := old(notification).(open := false))
    {
      notification := notification.(open := false);
    }
  }
}
