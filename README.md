# Flour Fleet Advisory contact pipeline, modelled in Dafny

This project models the part of the Flour Fleet Advisory website that has
behaviour: the contact-submission pipeline, plus two small helpers used by the
pages.

- **Contact endpoint** (`POST /api/contact`, module `ContactRoute`). It covers the
  server-side zod schema, the list of validation issues zod reports, and the row
  inserted into `contact_submissions`. It also covers the plain-text and HTML
  notification email, and the handler's order: parse, validate, insert, notify
  (best effort), respond. The handler is a method over abstract outcomes: the JSON
  parse, the Supabase insert and the Resend `fetch`. It returns the HTTP response
  and an effect trace: the row handed to the insert, the email handed to Resend and
  the `console.error` calls.
- **Contact form** (module `ClientForm`). It covers the client zod schema, which is
  stricter than the server's, and the default values. It has a class `ContactForm`
  whose fields are the component's state cells (`isSubmitting`, `submitStatus`,
  `submitMessage`), the form values and the timers a success schedules. The events
  are: editing, pressing submit, the request settling, and a timer firing.
- **FAQ accordion** (module `Faq`). It covers which entries a given `limit` shows,
  when "View all FAQs" is rendered, and the accordion item values.
- **Home page anchors** (module `HomePage`). It covers the slug
  `title.toLowerCase().replace(' ', '-')` and its agreement with the section ids of
  the services page.
- `JsStrings` holds the ECMAScript built-ins these use: `trim`, `replace`,
  `toLowerCase`, `String(n)` and `slice`. `ContactTypes` holds the shared shapes
  (based on `lib/types.ts`). `Wrappers` holds `Option`.

External collaborators become inputs. Zod's `.email()` check is a parameter
`emailValid: string -> bool` and is not defined. The parsed request body, the insert
result and the send result are datatypes the caller chooses. The three
`new Date().toISOString()` readings of a request are passed in as strings
(`ClockReadings`).

Where the intended design and the code differ, the model follows the code:
- A body that is not JSON makes `request.json()` throw an error that is not a
  `ZodError`. The answer is 500 "Internal server error", not a 400.
- The server schema has no 2000-character maximum on the message. Only the form has
  one.
- Only a success schedules the 5-second return to idle. An error status stays until
  the next submit.
- The slug replaces only the first space.

Behaviour the model makes visible:
- In the FAQ, a negative `limit` is truthy. `slice(0, -k)` then drops the last `k`
  entries, and the "View all" link is shown. With `showViewAll` set and `limit` 0,
  the JSX expression evaluates to the number 0, which React renders as the text "0".
  Neither page passes such values (`Faq.PageUses`).
- A timer left over from an earlier success fires whatever the status is by then. So
  it can clear an error shown by a later submit (`ClientForm.ContactForm.Tick`).
- For the responses this endpoint can give, the form always shows the server's own
  `error` text. The form's fallback "Failed to submit form. Please try again." is
  never shown for them (`ClientForm.FormReadsRouteResponse`).

## Model

| member | source | states |
|---|---|---|
| `ContactRoute.ServerValidMeans` | app/api/contact/route.ts:6-13 | The server schema accepts exactly when: both names have at least 1 character, `emailValid(email)` holds, `serviceType` is one of personal/business/international/unsure, and the message has at least 10 characters. The phone may be missing, null or any string. There is no upper bound on the message. |
| `ContactRoute.ServerFieldIssues` | app/api/contact/route.ts:7-12 | For each key, the zod issues (code, minimum, and the schema's message) are all about that key. They are empty exactly when the key's rule holds. |
| `ContactRoute.ServerIssuesNameOffendingFields` | app/api/contact/route.ts:6-13 | The `ZodError` issue list names a key exactly when that key breaks its server rule. |
| `ContactRoute.ServerIssuesEmptyIffValid` | app/api/contact/route.ts:19 | `parse` reports no issue exactly when the data is server-valid. |
| `ContactRoute.PhoneOrNull` | app/api/contact/route.ts:28 | The JavaScript `phone or null` expression gives null exactly for missing, null and `""`. Otherwise it is the given non-empty string. |
| `ContactRoute.ToRecord` | app/api/contact/route.ts:24-33 | The inserted row copies firstName, lastName, email, serviceType and message unchanged. Its status is `pending` and it carries the given `created_at`. Its phone is null exactly when the phone is missing, null or `""`, and otherwise is the submitted string. |
| `ContactRoute.PhoneShown` | app/api/contact/route.ts:50 | The `phone or 'Not provided'` expression shows the fallback for a falsy phone and the phone itself otherwise. The shown text is "Not provided" exactly when the phone is falsy or is literally that string. |
| `ContactRoute.EmailTextIsPlainText` | app/api/contact/route.ts:45-58 | When the timestamp ends in a visible character, `.trim()` removes exactly the template's opening newline and closing indentation. The text body then runs from the heading line to the timestamp. |
| `ContactRoute.HtmlMessage` | app/api/contact/route.ts:81 | The HTML rendering of the message contains no newline character. |
| `ContactRoute.HtmlMessageText` | app/api/contact/route.ts:81 | Replacing `\n` with `<br>` adds three characters per newline. A message without newlines is unchanged. |
| `ContactRoute.NotificationFor` | app/api/contact/route.ts:67-71 | The email goes from the fixed Resend sender to `siteConfig.contact.submissionEmail`. Its subject is "New Contact Form Submission from " followed by first name, a space and last name. |
| `ContactRoute.Post` | app/api/contact/route.ts:15-123 | If the body is not JSON, or the insert throws, the answer is 500 "Internal server error". If validation fails, the answer is 400 "Validation error" carrying zod's issues, and nothing is inserted or emailed. A row is inserted exactly when the data is server-valid, and it is `ToRecord` of the data. If the insert returns an error, the answer is 500 "Failed to submit form" and no email is attempted. After a stored insert, the email is attempted and the answer is 200 success, whatever the send did; a send failure is only logged. Success holds exactly when the insert stored the row. |
| `ClientForm.ClientValidMeans` | components/ContactForm.tsx:23-32 | The form schema accepts exactly when: both names have at least 2 characters, `emailValid(email)` holds, the phone is missing or a string (not null), the service type is in the enumeration, and the message has 10 to 2000 characters, both ends included. |
| `ClientForm.ClientFieldIssues` | components/ContactForm.tsx:24-31 | Every check on a string runs. An empty name gets both "required" and "at least 2 characters"; a short message gets `too_small(10)`; a long one gets `too_big(2000)`. The issues are empty exactly when the key is valid. |
| `ClientForm.ClientIssuesNameOffendingFields` | components/ContactForm.tsx:23-32 | The form's issue list names a key exactly when that key breaks its client rule. |
| `ClientForm.ClientIssuesEmptyIffValid` | components/ContactForm.tsx:42 | The resolver reports nothing exactly when the values are client-valid. |
| `ClientForm.ClientValidImpliesServerValid` | components/ContactForm.tsx:24-31 | Every client-valid value is server-valid, and the server reports no issue for it. |
| `ClientForm.ServerIssuesWithinClientIssues` | components/ContactForm.tsx:23-32 | Every key the server schema would flag is flagged by the form schema too. |
| `ClientForm.ServerStrictlyWeaker` | app/api/contact/route.ts:7-12 | The server is strictly more lenient. A one-letter first name, or a 2001-character message, passes the server but not the form. |
| `ClientForm.FailureMessage` | components/ContactForm.tsx:71 | The `result.error or fallback` expression is never empty. It is the server's error when that is a non-empty string, and the fallback otherwise. |
| `ClientForm.FormReadsRouteResponse` | components/ContactForm.tsx:67-73 | For every response the endpoint can give, `response.ok` holds exactly on success. On failure, the message shown is the endpoint's own error text and never the fallback. |
| `ClientForm.DefaultsNotSubmittable` | components/ContactForm.tsx:43-50 | The default values (empty strings, `serviceType` "unsure") are not client-valid. The resolver flags the first name and the message. |
| `ClientForm.ContactForm.constructor` | components/ContactForm.tsx:37-51 | The form starts not submitting, idle, with an empty message, the default values and no pending timer. |
| `ClientForm.ContactForm.Edit` | components/ContactForm.tsx:113-231 | Editing the fields changes the values and nothing else. |
| `ClientForm.ContactForm.Press` | components/ContactForm.tsx:235 | While submitting, the button is disabled and a press changes nothing. Otherwise `handleSubmit` posts the values exactly when they are client-valid, then sets submitting, idle and an empty message (lines 53-56). Posted values are server-valid. |
| `ClientForm.ContactForm.Settle` | components/ContactForm.tsx:58-87 | On every path the submit ends with `isSubmitting` false. A network failure or a non-JSON answer gives error status with "An error occurred. Please try again or email us directly.". A non-ok JSON answer gives error status with `FailureMessage(result.error)`. An ok answer gives success status with the thank-you text, resets the values to the defaults and schedules one timer. Only a success schedules a timer. |
| `ClientForm.ContactForm.Tick` | components/ContactForm.tsx:79-81 | A timer can only fire after a success scheduled it. Firing sets the status to idle, whatever the status is, and changes nothing else. |
| `Faq.Displayed` | components/FAQ.tsx:51 | The displayed list is always a prefix of `allFAQs`, in order. A missing or zero `limit` shows all 8 entries. A positive `limit` shows the first `min(limit, 8)`. A negative `limit` shows the first `max(8 + limit, 0)`. |
| `Faq.ViewAll` | components/FAQ.tsx:68-74 | The link is rendered exactly when `showViewAll` is set and `limit` is present, non-zero and below 8. `showViewAll` with `limit` 0 renders a stray "0". |
| `Faq.ViewAllIffSomeHidden` | components/FAQ.tsx:51-68 | With `showViewAll` set, the link appears exactly when fewer than all 8 entries are displayed. |
| `Faq.PageUses` | app/page.tsx:181-184 | The home page's `limit={3} showViewAll` shows the first three entries and the link. The FAQ page's bare `<FAQ />` shows all entries and no link. |
| `Faq.ItemValueInjective` | components/FAQ.tsx:57 | Different indices give different accordion values `item-<idx>`. |
| `Faq.ItemValues` | components/FAQ.tsx:56-57 | There is one accordion value per displayed entry, and the values are pairwise distinct. |
| `HomePage.AnchorSlug` | app/page.tsx:132 | The slug has the title's length. Each character is lower-cased, except the first space, which becomes `-`. |
| `HomePage.LaterSpacesKept` | app/page.tsx:132 | Spaces after the first stay spaces. |
| `HomePage.SlugHasNoUppercase` | app/page.tsx:132 | A slug contains no ASCII capital letter. |
| `HomePage.SlugsMatchServiceSections` | app/page.tsx:107-132 | The three titles give `personal-tax`, `business-tax` and `international-tax`. These are the section ids of app/services/page.tsx lines 14, 30 and 46, in the same order. |
| `JsStrings.TrimStart` | app/api/contact/route.ts:58 | The result is the longest suffix that does not start with whitespace. Everything removed is whitespace. |
| `JsStrings.TrimEnd` | app/api/contact/route.ts:58 | The result is the longest prefix that does not end with whitespace. Everything removed is whitespace. |
| `JsStrings.TrimFramed` | app/api/contact/route.ts:45-58 | Trimming whitespace-framed text gives back the text, when the text starts and ends with a visible character. |
| `JsStrings.IndexOf` | app/page.tsx:132 | The result is the first index of the character, or -1 exactly when the character is absent. |
| `JsStrings.ReplaceFirst` | app/page.tsx:132 | With a one-character string pattern, `replace` changes only the first occurrence and keeps the length. |
| `JsStrings.ReplaceAllLength` | app/api/contact/route.ts:81 | A global replacement grows the text by the replacement's length minus 1 for each occurrence. |
| `JsStrings.ReplaceAllAbsent` | app/api/contact/route.ts:81 | A global replacement leaves text without the pattern unchanged. |
| `JsStrings.ReplaceAllConcat` | app/api/contact/route.ts:81 | A global replacement works piece by piece over concatenation. |
| `JsStrings.NatToStringRoundTrip` | components/FAQ.tsx:57 | Reading the decimal text of `n` back gives `n`. |
| `JsStrings.NatToStringInjective` | components/FAQ.tsx:57 | Distinct numbers have distinct decimal texts. |
| `JsStrings.SliceTo` | components/FAQ.tsx:51 | `slice(0, end)` is a prefix. Its length is `min(end, len)` for `end >= 0` and `max(len + end, 0)` for a negative `end`. |

## Left out

- Zod's email grammar: `emailValid` is an uninterpreted parameter and is never defined.
- Zod's own default messages for `invalid_type` and `invalid_enum_value`. A body with non-string keys, or one that is not an object, is `Mistyped`, and its issue list is an input.
- Supabase: creating the client, the insert call and its network behaviour. The insert is an abstract `InsertOutcome`.
- Resend: the HTTP request, its headers and the API key. The send is an abstract `SendOutcome`.
- `request.json()` and `response.json()` parsing: modelled only as their outcomes.
- `ContactRoute.Post`: the `data` field of the success body (the rows Supabase returns) is not modelled.
- `ContactRoute.Post`: the text passed to `console.error` is not modelled; only which call was made is recorded.
- The clock: the three `toISOString()` readings are inputs, and their format is not checked.
- The 5000 ms delay: a timer firing is the explicit event `Tick`, allowed only after a success.
- String lengths are counted in Unicode code points. JavaScript counts UTF-16 code units, so a character outside the Basic Multilingual Plane counts twice in the source.
- `JsStrings.ToLowerCase`: maps only ASCII letters. JavaScript's full Unicode case mapping is not modelled.
- `HomePage.SlugHasNoUppercase`: speaks of ASCII capitals only, for the same reason.
- `Faq.Displayed`: `limit` is an optional integer. Fractional and NaN limits (NaN is falsy; fractions are truncated by `slice`) are not modelled.
- react-hook-form internals: field registration, showing per-field messages, and unmounting the component while a request or timer is pending.
- HTML escaping of the submitted values in the email (the source does none) and HTML rendering.
- Concurrency between requests: the handler keeps no shared state.
- lib/supabase.ts, the static pages, Header.tsx, Footer.tsx and config/site.ts beyond the submission address are not part of this model.
