/**
 * The contact form component: its own, stricter zod schema, the default field
 * values, and the submit state machine (`isSubmitting`, `submitStatus`,
 * `submitMessage`, the field values and the 5-second timers a success schedules).
 */
module ClientForm {
  import opened Wrappers
  import opened ContactTypes
  import opened ContactRoute

  // ---------------------------------------------------------------------------
  // Client schema
  // ---------------------------------------------------------------------------

  /** The client schema's rule for one key. */
  predicate ClientFieldValid(d: ContactFormData, f: Field, emailValid: string -> bool) {
    match f
    case FirstName => |d.firstName| >= 2
    case LastName => |d.lastName| >= 2
    case Email => emailValid(d.email)
    case Phone => !d.phone.Null?  // optional, but not nullable
    case ServiceType => d.serviceType in ServiceTypes
    case Message => 10 <= |d.message| <= 2000
  }

  /** The resolver accepts the form values. */
  predicate ClientValid(d: ContactFormData, emailValid: string -> bool) {
    forall f :: ClientFieldValid(d, f, emailValid)
  }

  /** Client-valid spelled out key by key; the 2000-character maximum is inclusive. */
  lemma ClientValidMeans(d: ContactFormData, emailValid: string -> bool)
    ensures ClientValid(d, emailValid) <==>
      && |d.firstName| >= 2
      && |d.lastName| >= 2
      && emailValid(d.email)
      && !d.phone.Null?
      && d.serviceType in ["personal", "business", "international", "unsure"]
      && 10 <= |d.message| <= 2000
  {
    if ClientValid(d, emailValid) {
      assert ClientFieldValid(d, FirstName, emailValid);
      assert ClientFieldValid(d, LastName, emailValid);
      assert ClientFieldValid(d, Email, emailValid);
      assert ClientFieldValid(d, Phone, emailValid);
      assert ClientFieldValid(d, ServiceType, emailValid);
      assert ClientFieldValid(d, Message, emailValid);
    }
  }

  /** The issues zod reports for one key under the client schema. Every check of a
      string runs, so an empty first name gets both of its messages. */
  function ClientFieldIssues(d: ContactFormData, f: Field, emailValid: string -> bool): (r: seq<Issue>)
    ensures forall i :: 0 <= i < |r| ==> r[i].path == f
    ensures r == [] <==> ClientFieldValid(d, f, emailValid)
  {
    match f
    case FirstName =>
      (if |d.firstName| < 1 then [Issue(FirstName, TooSmall(1, "First name is required"))] else [])
      + (if |d.firstName| < 2 then [Issue(FirstName, TooSmall(2, "First name must be at least 2 characters"))] else [])
    case LastName =>
      (if |d.lastName| < 1 then [Issue(LastName, TooSmall(1, "Last name is required"))] else [])
      + (if |d.lastName| < 2 then [Issue(LastName, TooSmall(2, "Last name must be at least 2 characters"))] else [])
    case Email =>
      if !emailValid(d.email) then [Issue(Email, InvalidEmail("Please enter a valid email address"))] else []
    case Phone =>
      if d.phone.Null? then [Issue(Phone, InvalidType)] else []
    case ServiceType =>
      if d.serviceType !in ServiceTypes
      then [Issue(ServiceType, InvalidEnumValue(Some("Please select a service type")))] else []
    case Message =>
      (if |d.message| < 10 then [Issue(Message, TooSmall(10, "Message must be at least 10 characters"))] else [])
      + (if |d.message| > 2000 then [Issue(Message, TooBig(2000, "Message must be less than 2000 characters"))] else [])
  }

  /** The issues the resolver hands to the form, keys in schema order. */
  function ClientIssues(d: ContactFormData, emailValid: string -> bool): seq<Issue> {
    Report((g: Field) => ClientFieldIssues(d, g, emailValid))
  }

  /** The client's issue list names exactly the keys that break a client rule. */
  lemma ClientIssuesNameOffendingFields(d: ContactFormData, f: Field, emailValid: string -> bool)
    ensures Offends(ClientIssues(d, emailValid), f) <==> !ClientFieldValid(d, f, emailValid)
  {
    ReportNames((g: Field) => ClientFieldIssues(d, g, emailValid), f);
  }

  lemma ClientIssuesEmptyIffValid(d: ContactFormData, emailValid: string -> bool)
    ensures ClientIssues(d, emailValid) == [] <==> ClientValid(d, emailValid)
  {
    ReportEmpty((g: Field) => ClientFieldIssues(d, g, emailValid));
  }

  /** Every value the form lets through also passes the server's schema. */
  lemma ClientValidImpliesServerValid(d: ContactFormData, emailValid: string -> bool)
    requires ClientValid(d, emailValid)
    ensures ServerValid(d, emailValid)
    ensures ServerIssues(d, emailValid) == []
  {
    forall f ensures ServerFieldValid(d, f, emailValid) {
      assert ClientFieldValid(d, f, emailValid);
    }
    ServerIssuesEmptyIffValid(d, emailValid);
  }

  /** Every key the server would flag, the form flags already. */
  lemma ServerIssuesWithinClientIssues(d: ContactFormData, f: Field, emailValid: string -> bool)
    requires Offends(ServerIssues(d, emailValid), f)
    ensures Offends(ClientIssues(d, emailValid), f)
  {
    ServerIssuesNameOffendingFields(d, f, emailValid);
    ClientIssuesNameOffendingFields(d, f, emailValid);
  }

  /** The server is strictly more lenient: a one-letter first name and a message over
      2000 characters pass the server but not the form. */
  lemma ServerStrictlyWeaker(email: string, emailValid: string -> bool)
    requires emailValid(email)
    ensures var d := ContactFormData("J", "Li", email, Undefined, "personal", "I need some advice.");
            ServerValid(d, emailValid) && !ClientValid(d, emailValid)
    ensures var d := ContactFormData("Jo", "Li", email, Undefined, "unsure", seq(2001, _ => 'a'));
            ServerValid(d, emailValid) && !ClientValid(d, emailValid)
  {
    var d1 := ContactFormData("J", "Li", email, Undefined, "personal", "I need some advice.");
    ServerValidMeans(d1, emailValid);
    assert !ClientFieldValid(d1, FirstName, emailValid);
    var d2 := ContactFormData("Jo", "Li", email, Undefined, "unsure", seq(2001, _ => 'a'));
    ServerValidMeans(d2, emailValid);
    assert !ClientFieldValid(d2, Message, emailValid);
  }

  // ---------------------------------------------------------------------------
  // Submit state machine
  // ---------------------------------------------------------------------------

  datatype SubmitStatus = Idle | Success | Error

  /** What `await response.json()` produced: a body that is not JSON, or one whose
      `error` property is read. */
  datatype ResultBody = Unparsable | Parsed(error: Option<string>)

  /** What the `fetch('/api/contact')` and the parse of its answer came to. */
  datatype FetchOutcome = NetworkError | Answered(ok: bool, result: ResultBody)

  /** `form.reset()` goes back to these. */
  const DefaultValues: ContactFormData := ContactFormData("", "", "", Text(""), "unsure", "")

  const ThankYouMessage: string := "Thank you for your inquiry! Natalie will be in touch within 24-48 hours."
  const FailureFallback: string := "Failed to submit form. Please try again."
  const TransportFailureMessage: string := "An error occurred. Please try again or email us directly."

  /** `result.error || 'Failed to submit form. Please try again.'`. */
  function FailureMessage(error: Option<string>): (m: string)
    ensures m != ""
    ensures error.Some? && error.value != "" ==> m == error.value
    ensures error.None? || error == Some("") ==> m == FailureFallback
  {
    if error.Some? && error.value != "" then error.value else FailureFallback
  }

  /** How an answer of the endpoint reaches the form: `response.ok` is a 2xx status. */
  function Observe(resp: Response): FetchOutcome {
    Answered(200 <= resp.status <= 299, Parsed(resp.Error()))
  }

  /** The form reads every answer of the endpoint correctly: `ok` exactly on success,
      and on failure it shows the endpoint's own error text, never its fallback. */
  lemma FormReadsRouteResponse(resp: Response)
    requires IsRouteResponse(resp)
    ensures Observe(resp).ok <==> resp.Success()
    ensures !resp.Success() ==> FailureMessage(Observe(resp).result.error) == resp.body.error
    ensures !resp.Success() ==> FailureMessage(Observe(resp).result.error) != FailureFallback
  {
  }

  /** The untouched form cannot be submitted. */
  lemma DefaultsNotSubmittable(emailValid: string -> bool)
    ensures !ClientValid(DefaultValues, emailValid)
    ensures Offends(ClientIssues(DefaultValues, emailValid), FirstName)
    ensures Offends(ClientIssues(DefaultValues, emailValid), Message)
  {
    assert !ClientFieldValid(DefaultValues, FirstName, emailValid);
    ClientIssuesNameOffendingFields(DefaultValues, FirstName, emailValid);
    ClientIssuesNameOffendingFields(DefaultValues, Message, emailValid);
  }

  class ContactForm {
    var isSubmitting: bool
    var submitStatus: SubmitStatus
    var submitMessage: string
    /** The field values react-hook-form holds. */
    var values: ContactFormData
    /** Timers scheduled by successful submits that have not fired yet. */
    var pendingTimers: nat

    /** What every reachable state satisfies. */
    ghost predicate Valid()
      reads this
    {
      && (isSubmitting ==> submitStatus == Idle && submitMessage == "")
      && (submitStatus == Success ==> submitMessage == ThankYouMessage)
      && (submitStatus == Error ==> submitMessage != "")
    }

    constructor ()
      ensures Valid()
      ensures !isSubmitting && submitStatus == Idle && submitMessage == ""
      ensures values == DefaultValues && pendingTimers == 0
    {
      isSubmitting := false;
      submitStatus := Idle;
      submitMessage := "";
      values := DefaultValues;
      pendingTimers := 0;
    }

    /** The submit button is disabled while a submit is in flight. */
    predicate SubmitDisabled()
      reads this
    {
      isSubmitting
    }

    /** The visitor edits the fields. */
    method Edit(v: ContactFormData)
      modifies this
      ensures values == v
      ensures isSubmitting == old(isSubmitting) && submitStatus == old(submitStatus)
      ensures submitMessage == old(submitMessage) && pendingTimers == old(pendingTimers)
    {
      values := v;
    }

    /** The visitor presses "Submit Enquiry". A disabled button does nothing; otherwise
        `handleSubmit` runs the resolver and calls `onSubmit` only with client-valid
        values, which then start the request. `posted` is the JSON body sent. */
    method Press(emailValid: string -> bool) returns (posted: Option<ContactFormData>)
      requires Valid()
      modifies this
      ensures Valid()
      ensures values == old(values) && pendingTimers == old(pendingTimers)
      ensures posted.Some? <==> !old(isSubmitting) && ClientValid(old(values), emailValid)
      ensures posted.Some? ==> posted.value == values && ServerValid(posted.value, emailValid)
      ensures posted.Some? ==> isSubmitting && submitStatus == Idle && submitMessage == ""
      ensures posted.None? ==>
        isSubmitting == old(isSubmitting) && submitStatus == old(submitStatus) && submitMessage == old(submitMessage)
    {
      if SubmitDisabled() || !ClientValid(values, emailValid) {
        return None;
      }
      ClientValidImpliesServerValid(values, emailValid);
      isSubmitting := true;
      submitStatus := Idle;
      submitMessage := "";
      posted := Some(values);
    }

    /** The awaited request settles: the rest of `onSubmit`, its `catch` and its `finally`. */
    method Settle(outcome: FetchOutcome)
      requires Valid() && isSubmitting
      modifies this
      ensures Valid() && !isSubmitting
      ensures outcome.NetworkError? || (outcome.Answered? && outcome.result.Unparsable?) ==>
        && submitStatus == Error && submitMessage == TransportFailureMessage
        && values == old(values) && pendingTimers == old(pendingTimers)
      ensures outcome.Answered? && outcome.result.Parsed? && !outcome.ok ==>
        && submitStatus == Error && submitMessage == FailureMessage(outcome.result.error)
        && values == old(values) && pendingTimers == old(pendingTimers)
      ensures outcome.Answered? && outcome.result.Parsed? && outcome.ok ==>
        && submitStatus == Success && submitMessage == ThankYouMessage
        && values == DefaultValues && pendingTimers == old(pendingTimers) + 1
      ensures submitStatus == Success <==> outcome.Answered? && outcome.result.Parsed? && outcome.ok
    {
      match outcome {
        case NetworkError =>
          submitStatus := Error;
          submitMessage := TransportFailureMessage;
        case Answered(ok, Unparsable) =>
          submitStatus := Error;
          submitMessage := TransportFailureMessage;
        case Answered(ok, Parsed(error)) =>
          if !ok {
            submitStatus := Error;
            submitMessage := FailureMessage(error);
          } else {
            submitStatus := Success;
            submitMessage := ThankYouMessage;
            values := DefaultValues;
            pendingTimers := pendingTimers + 1;
          }
      }
      isSubmitting := false;
    }

    /** A timer scheduled by an earlier success fires and sets the status back to idle,
        whatever the status is by then. */
    method Tick()
      requires Valid() && pendingTimers > 0
      modifies this
      ensures Valid()
      ensures submitStatus == Idle && pendingTimers == old(pendingTimers) - 1
      ensures isSubmitting == old(isSubmitting) && submitMessage == old(submitMessage) && values == old(values)
    {
      submitStatus := Idle;
      pendingTimers := pendingTimers - 1;
    }
  }
}
