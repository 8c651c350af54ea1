/**
 * The contact endpoint, `POST /api/contact`: the server-side zod schema, the row it
 * inserts into `contact_submissions`, the notification email it builds, and the
 * handler's control flow over abstract outcomes of the JSON parse, the insert and
 * the email send.
 */
module ContactRoute {
  import opened Wrappers
  import opened JsStrings
  import opened ContactTypes

  // ---------------------------------------------------------------------------
  // Server schema
  // ---------------------------------------------------------------------------

  /** The server schema's rule for one key. `emailValid` stands for zod's `.email()`
      check, whose grammar is not part of this model. */
  predicate ServerFieldValid(d: ContactFormData, f: Field, emailValid: string -> bool) {
    match f
    case FirstName => |d.firstName| >= 1
    case LastName => |d.lastName| >= 1
    case Email => emailValid(d.email)
    case Phone => true  // optional and nullable: missing, null and every string pass
    case ServiceType => d.serviceType in ServiceTypes
    case Message => |d.message| >= 10  // no maximum on the server
  }

  /** `contactFormSchema.parse` succeeds on the server. */
  predicate ServerValid(d: ContactFormData, emailValid: string -> bool) {
    forall f :: ServerFieldValid(d, f, emailValid)
  }

  /** Server-valid spelled out key by key; in particular a message of any length
      from 10 characters up passes. */
  lemma ServerValidMeans(d: ContactFormData, emailValid: string -> bool)
    ensures ServerValid(d, emailValid) <==>
      && |d.firstName| >= 1
      && |d.lastName| >= 1
      && emailValid(d.email)
      && d.serviceType in ["personal", "business", "international", "unsure"]
      && |d.message| >= 10
  {
    if ServerValid(d, emailValid) {
      assert ServerFieldValid(d, FirstName, emailValid);
      assert ServerFieldValid(d, LastName, emailValid);
      assert ServerFieldValid(d, Email, emailValid);
      assert ServerFieldValid(d, ServiceType, emailValid);
      assert ServerFieldValid(d, Message, emailValid);
    }
  }

  /** The issues zod reports for one key, with the schema's messages. */
  function ServerFieldIssues(d: ContactFormData, f: Field, emailValid: string -> bool): (r: seq<Issue>)
    ensures forall i :: 0 <= i < |r| ==> r[i].path == f
    ensures r == [] <==> ServerFieldValid(d, f, emailValid)
  {
    match f
    case FirstName =>
      if |d.firstName| < 1 then [Issue(FirstName, TooSmall(1, "First name is required"))] else []
    case LastName =>
      if |d.lastName| < 1 then [Issue(LastName, TooSmall(1, "Last name is required"))] else []
    case Email =>
      if !emailValid(d.email) then [Issue(Email, InvalidEmail("Valid email is required"))] else []
    case Phone => []
    case ServiceType =>
      if d.serviceType !in ServiceTypes then [Issue(ServiceType, InvalidEnumValue(None))] else []
    case Message =>
      if |d.message| < 10 then [Issue(Message, TooSmall(10, "Message must be at least 10 characters"))] else []
  }

  /** The `error.errors` list of the `ZodError`, keys in schema order. */
  function ServerIssues(d: ContactFormData, emailValid: string -> bool): seq<Issue> {
    Report((g: Field) => ServerFieldIssues(d, g, emailValid))
  }

  /** The issue list names exactly the keys that break a rule. */
  lemma ServerIssuesNameOffendingFields(d: ContactFormData, f: Field, emailValid: string -> bool)
    ensures Offends(ServerIssues(d, emailValid), f) <==> !ServerFieldValid(d, f, emailValid)
  {
    ReportNames((g: Field) => ServerFieldIssues(d, g, emailValid), f);
  }

  /** Parsing fails exactly when zod has something to report. */
  lemma ServerIssuesEmptyIffValid(d: ContactFormData, emailValid: string -> bool)
    ensures ServerIssues(d, emailValid) == [] <==> ServerValid(d, emailValid)
  {
    ReportEmpty((g: Field) => ServerFieldIssues(d, g, emailValid));
  }

  // ---------------------------------------------------------------------------
  // Inserted record
  // ---------------------------------------------------------------------------

  /** JavaScript falsiness of the phone value: `undefined`, `null` and `""`. */
  predicate PhoneFalsy(p: PhoneValue) {
    p.Undefined? || p.Null? || p == Text("")
  }

  /** `phone || null`. */
  function PhoneOrNull(p: PhoneValue): (r: Option<string>)
    ensures r.None? <==> PhoneFalsy(p)
    ensures r.Some? ==> p == Text(r.value) && r.value != ""
  {
    if PhoneFalsy(p) then None else Some(p.s)
  }

  /** The row handed to the insert: keys copied, phone normalised, status pending. */
  function ToRecord(d: ContactFormData, createdAt: string): (r: SubmissionRecord)
    ensures r.firstName == d.firstName && r.lastName == d.lastName && r.email == d.email
    ensures r.serviceType == d.serviceType && r.message == d.message
    ensures r.phone.None? <==> d.phone in {Undefined, Null, Text("")}
    ensures r.phone.Some? ==> d.phone == Text(r.phone.value)
    ensures r.createdAt == createdAt && r.status == Pending && r.status.Name() == "pending"
  {
    SubmissionRecord(d.firstName, d.lastName, d.email, PhoneOrNull(d.phone), d.serviceType,
                     d.message, createdAt, Pending)
  }

  // ---------------------------------------------------------------------------
  // Notification email
  // ---------------------------------------------------------------------------

  const NotificationSender: string := "Flour Fleet Advisory <onboarding@resend.dev>"
  /** `siteConfig.contact.submissionEmail`. */
  const SubmissionEmail: string := "flourfleet.com@gmail.com"
  // written as two literals: the verifier only looks inside short string literals
  const EmailHeading: string := "New contact form submission " + "from Flour Fleet Advisory website"

  /** `phone || 'Not provided'`. */
  function PhoneShown(p: PhoneValue): (r: string)
    ensures PhoneFalsy(p) ==> r == "Not provided"
    ensures !PhoneFalsy(p) ==> r == p.s
    ensures r == "Not provided" <==> PhoneFalsy(p) || p == Text("Not provided")
  {
    if PhoneFalsy(p) then "Not provided" else p.s
  }

  function FullName(d: ContactFormData): string {
    d.firstName + " " + d.lastName
  }

  function Subject(d: ContactFormData): string {
    "New Contact Form Submission from " + FullName(d)
  }

  /** The plain-text body between the template's framing newlines. */
  function PlainText(d: ContactFormData, submittedAt: string): string {
    EmailHeading + "\n\nName: " + FullName(d) + "\nEmail: " + d.email
    + "\nPhone: " + PhoneShown(d.phone) + "\nService Type: " + d.serviceType
    + "\n\nMessage:\n" + d.message + "\n\n---\nSubmitted at: " + submittedAt
  }

  /** `emailBody`: the template literal, which opens with a newline and closes with a
      newline and the source's indentation, then `.trim()`. */
  function EmailText(d: ContactFormData, submittedAt: string): string {
    Trim("\n" + PlainText(d, submittedAt) + "\n    ")
  }

  /** The trim takes off exactly the template's framing whenever the timestamp ends
      in a visible character (an ISO-8601 string ends in `Z`). */
  lemma EmailTextIsPlainText(d: ContactFormData, submittedAt: string)
    requires submittedAt != [] && !IsWhitespace(submittedAt[|submittedAt| - 1])
    ensures EmailText(d, submittedAt) == PlainText(d, submittedAt)
  {
    var t := PlainText(d, submittedAt);
    assert t == EmailHeading + t[|EmailHeading|..];
    assert t[0] == 'N';
    assert t[|t| - 1] == submittedAt[|submittedAt| - 1];
    TrimFramed("\n", t, "\n    ");
  }

  /** `message.replace(/\n/g, '<br>')`. */
  function HtmlMessage(message: string): (r: string)
    ensures '\n' !in r
  {
    ReplaceAll(message, '\n', "<br>")
  }

  /** Each newline of the message grows by three characters; a message without
      newlines is shown as it is. */
  lemma HtmlMessageText(message: string)
    ensures |HtmlMessage(message)| == |message| + 3 * Count(message, '\n')
    ensures '\n' !in message ==> HtmlMessage(message) == message
  {
    ReplaceAllLength(message, '\n', "<br>");
    if '\n' !in message {
      ReplaceAllAbsent(message, '\n', "<br>");
    }
  }

  /** The `html` template literal, indentation included. */
  function EmailHtml(d: ContactFormData, submittedAt: string): string {
    "\n            <div style=\"font-family: Arial, sans-serif; max-width: 600px;\">"
    + "\n              <h2>New Contact Form Submission</h2>"
    + "\n              <p><strong>Name:</strong> " + FullName(d) + "</p>"
    + "\n              <p><strong>Email:</strong> <a href=\"mailto:" + d.email + "\">" + d.email + "</a></p>"
    + "\n              <p><strong>Phone:</strong> " + PhoneShown(d.phone) + "</p>"
    + "\n              <p><strong>Service Type:</strong> " + d.serviceType + "</p>"
    + "\n              <hr>"
    + "\n              <h3>Message:</h3>"
    + "\n              <p>" + HtmlMessage(d.message) + "</p>"
    + "\n              <hr>"
    + "\n              <p style=\"color: #666; font-size: 12px;\">Submitted at: " + submittedAt + "</p>"
    + "\n            </div>"
    + "\n          "
  }

  datatype Notification = Notification(from: string, to: string, subject: string, text: string, html: string)

  /** The three `new Date().toISOString()` readings of one request, in source order. */
  datatype ClockReadings = ClockReadings(recordTime: string, textTime: string, htmlTime: string)

  /** The email the handler asks Resend to send. */
  function NotificationFor(d: ContactFormData, clock: ClockReadings): (n: Notification)
    ensures n.from == NotificationSender && n.to == SubmissionEmail
    ensures n.subject == "New Contact Form Submission from " + d.firstName + " " + d.lastName
  {
    Notification(NotificationSender, SubmissionEmail, Subject(d),
                 EmailText(d, clock.textTime), EmailHtml(d, clock.htmlTime))
  }

  // ---------------------------------------------------------------------------
  // The handler
  // ---------------------------------------------------------------------------

  /** What `await request.json()` yields, as far as the schema is concerned. */
  datatype RequestBody =
    | NotJson                        // the body does not parse: `request.json()` rejects
    | Mistyped(issues: seq<Issue>)   // JSON, but not an object of string keys: zod's type issues
    | Fields(data: ContactFormData)

  /** Outcome of the Supabase insert: stored, `{ error }` returned, or the call threw. */
  datatype InsertOutcome = Stored | DbError | InsertThrew

  /** Outcome of the `fetch` to the Resend API. */
  datatype SendOutcome = Sent | Rejected | RejectedUnreadable | SendThrew

  /** The `console.error` calls of the handler. */
  datatype LogEntry = DatabaseError | ResendApiError | ResendError | UnexpectedError

  datatype ResponseBody =
    | Succeeded(message: string)
    | Failed(error: string, details: Option<seq<Issue>>)

  datatype Response = Response(status: nat, body: ResponseBody) {
    predicate Success() { body.Succeeded? }
    /** `result.error` as the form reads it. */
    function Error(): Option<string> { if body.Failed? then Some(body.error) else None }
  }

  const Accepted: Response := Response(200, Succeeded("Thank you for your inquiry. We will be in touch shortly."))
  const FailedToSubmit: Response := Response(500, Failed("Failed to submit form", None))
  const InternalServerError: Response := Response(500, Failed("Internal server error", None))

  function ValidationFailure(issues: seq<Issue>): Response {
    Response(400, Failed("Validation error", Some(issues)))
  }

  /** The responses the handler can give. */
  predicate IsRouteResponse(r: Response) {
    || r == Accepted || r == FailedToSubmit || r == InternalServerError
    || (r.status == 400 && r.body.Failed? && r.body.details.Some? && r == ValidationFailure(r.body.details.value))
  }

  /** Effects of one request: the row handed to the insert, the email handed to
      Resend, and what was logged. */
  datatype Trace = Trace(inserted: Option<SubmissionRecord>, notified: Option<Notification>, logged: seq<LogEntry>)

  /** What the outer `catch` receives. */
  datatype Thrown = ZodError(issues: seq<Issue>) | OtherError

  /** `POST`: parse, validate, insert, notify (best effort), respond. */
  method Post(body: RequestBody, emailValid: string -> bool, insert: InsertOutcome,
              send: SendOutcome, clock: ClockReadings)
    returns (resp: Response, trace: Trace)
    ensures IsRouteResponse(resp)
    // a body that is not JSON is an unexpected error, not a validation error
    ensures body.NotJson? ==> resp == InternalServerError && trace == Trace(None, None, [UnexpectedError])
    ensures body.Mistyped? ==> resp == ValidationFailure(body.issues) && trace == Trace(None, None, [])
    ensures body.Fields? && !ServerValid(body.data, emailValid) ==>
      resp == ValidationFailure(ServerIssues(body.data, emailValid)) && trace == Trace(None, None, [])
    // validation precedes the insert, and a valid submission is always handed to it
    ensures trace.inserted.Some? <==> body.Fields? && ServerValid(body.data, emailValid)
    ensures trace.inserted.Some? ==> trace.inserted.value == ToRecord(body.data, clock.recordTime)
    ensures trace.inserted.Some? && insert.DbError? ==>
      resp == FailedToSubmit && trace.notified.None? && trace.logged == [DatabaseError]
    ensures trace.inserted.Some? && insert.InsertThrew? ==>
      resp == InternalServerError && trace.notified.None? && trace.logged == [UnexpectedError]
    // after a stored insert the answer is success whatever the send did
    ensures trace.inserted.Some? && insert.Stored? ==>
      resp == Accepted && trace.notified == Some(NotificationFor(body.data, clock))
    ensures trace.inserted.Some? && insert.Stored? ==>
      trace.logged == match send
                      case Sent => []
                      case Rejected => [ResendApiError]
                      case RejectedUnreadable | SendThrew => [ResendError]
    ensures resp.Success() <==> trace.inserted.Some? && insert.Stored?
    ensures resp.status == 400 <==> body.Mistyped? || (body.Fields? && !ServerValid(body.data, emailValid))
    ensures trace.notified.Some? ==> trace.inserted.Some? && insert.Stored?
  {
    trace := Trace(None, None, []);
    var thrown: Thrown;
    match body {
      case NotJson =>
        thrown := OtherError;
      case Mistyped(issues) =>
        thrown := ZodError(issues);
      case Fields(data) =>
        if !ServerValid(data, emailValid) {
          thrown := ZodError(ServerIssues(data, emailValid));
        } else {
          trace := trace.(inserted := Some(ToRecord(data, clock.recordTime)));
          match insert {
            case InsertThrew =>
              thrown := OtherError;
            case DbError =>
              trace := trace.(logged := trace.logged + [DatabaseError]);
              return FailedToSubmit, trace;
            case Stored =>
              trace := trace.(notified := Some(NotificationFor(data, clock)));
              match send {
                case Sent =>
                case Rejected =>
                  trace := trace.(logged := trace.logged + [ResendApiError]);
                case RejectedUnreadable =>
                  trace := trace.(logged := trace.logged + [ResendError]);
                case SendThrew =>
                  trace := trace.(logged := trace.logged + [ResendError]);
              }
              return Accepted, trace;
          }
        }
    }
    match thrown {
      case ZodError(issues) =>
        resp := ValidationFailure(issues);
      case OtherError =>
        trace := trace.(logged := trace.logged + [UnexpectedError]);
        resp := InternalServerError;
    }
  }
}
