/**
 * The shapes shared by the contact form and the contact endpoint: the object the
 * two zod schemas are applied to, the persisted submission, and zod's list of
 * validation issues.
 */
module ContactTypes {
  import opened Wrappers

  /** The `phone` key as it can appear in the submitted object: missing, `null`, or a string. */
  datatype PhoneValue = Undefined | Null | Text(s: string)

  /** The contact-form object handed to a schema. `serviceType` is kept as the received
      string, since membership in the enumeration is one of the schema's rules. */
  datatype ContactFormData = ContactFormData(
    firstName: string,
    lastName: string,
    email: string,
    phone: PhoneValue,
    serviceType: string,
    message: string)

  /** The four values of the service-type enumeration. */
  const ServiceTypes: seq<string> := ["personal", "business", "international", "unsure"]

  /** Status of a persisted submission; this subsystem only ever writes `Pending`. */
  datatype SubmissionStatus = Pending | Processed {
    function Name(): string {
      match this
      case Pending => "pending"
      case Processed => "processed"
    }
  }

  /** A row of the `contact_submissions` table as the endpoint inserts it. */
  datatype SubmissionRecord = SubmissionRecord(
    firstName: string,
    lastName: string,
    email: string,
    phone: Option<string>,
    serviceType: string,
    message: string,
    createdAt: string,
    status: SubmissionStatus)

  /** The key of the object a validation issue is about. */
  datatype Field = FirstName | LastName | Email | Phone | ServiceType | Message

  /** The zod issue codes the two schemas can raise, with the schema's own message
      where it supplies one. */
  datatype IssueCode =
    | TooSmall(minimum: nat, message: string)
    | TooBig(maximum: nat, message: string)
    | InvalidEmail(message: string)
    | InvalidEnumValue(customMessage: Option<string>)
    | InvalidType

  datatype Issue = Issue(path: Field, code: IssueCode)

  /** Some issue of the list is about field `f`. */
  predicate Offends(issues: seq<Issue>, f: Field) {
    exists i :: 0 <= i < |issues| && issues[i].path == f
  }

  lemma OffendsConcat(a: seq<Issue>, b: seq<Issue>, f: Field)
    ensures Offends(a + b, f) <==> Offends(a, f) || Offends(b, f)
  {
    if Offends(a, f) {
      var i :| 0 <= i < |a| && a[i].path == f;
      assert (a + b)[i] == a[i];
    }
    if Offends(b, f) {
      var i :| 0 <= i < |b| && b[i].path == f;
      assert (a + b)[|a| + i] == b[i];
    }
    if Offends(a + b, f) {
      var i :| 0 <= i < |a + b| && (a + b)[i].path == f;
      if i < |a| {
        assert a[i] == (a + b)[i];
      } else {
        assert b[i - |a|] == (a + b)[i];
      }
    }
  }

  /** zod's report for a whole object: each key's issues, keys in schema order. */
  function Report(fieldIssues: Field -> seq<Issue>): seq<Issue> {
    fieldIssues(FirstName) + fieldIssues(LastName) + fieldIssues(Email)
    + fieldIssues(Phone) + fieldIssues(ServiceType) + fieldIssues(Message)
  }

  /** A report names a key exactly when that key has issues of its own. */
  lemma ReportNames(fieldIssues: Field -> seq<Issue>, f: Field)
    requires forall g: Field, i :: 0 <= i < |fieldIssues(g)| ==> fieldIssues(g)[i].path == g
    ensures Offends(Report(fieldIssues), f) <==> fieldIssues(f) != []
  {
    var a, b, c := fieldIssues(FirstName), fieldIssues(LastName), fieldIssues(Email);
    var p, s, m := fieldIssues(Phone), fieldIssues(ServiceType), fieldIssues(Message);
    OffendsConcat(a, b, f);
    OffendsConcat(a + b, c, f);
    OffendsConcat(a + b + c, p, f);
    OffendsConcat(a + b + c + p, s, f);
    OffendsConcat(a + b + c + p + s, m, f);
    forall g: Field ensures Offends(fieldIssues(g), f) <==> g == f && fieldIssues(g) != [] {
      if g == f && fieldIssues(g) != [] {
        assert fieldIssues(g)[0].path == f;
      }
    }
  }

  /** A report is empty exactly when no key has issues. */
  lemma ReportEmpty(fieldIssues: Field -> seq<Issue>)
    requires forall g: Field, i :: 0 <= i < |fieldIssues(g)| ==> fieldIssues(g)[i].path == g
    ensures Report(fieldIssues) == [] <==> forall f: Field :: fieldIssues(f) == []
  {
    if Report(fieldIssues) != [] {
      var f := Report(fieldIssues)[0].path;
      ReportNames(fieldIssues, f);
      assert fieldIssues(f) != [];
    } else {
      forall f: Field ensures fieldIssues(f) == [] {
        ReportNames(fieldIssues, f);
      }
    }
  }
}
