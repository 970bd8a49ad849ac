# Contact pipeline of a portfolio site, modelled in Dafny

The site is a static portfolio page. Its one piece of logic is the contact
path: a form component (`ContactForm`) that checks a four-field draft
locally and posts it, and an endpoint (`POST /api/contact`) that checks it
again, builds an SMTP transporter, verifies it and sends the message
(see "## Findings" for the name of the factory it calls). This project
models both halves and the hop between them.

- `js_strings.dfy` (`JsStrings`): the white-space class shared by the
  regular expression `\s` and `String.prototype.trim`, given as the exact
  ECMAScript character set, and `trim` itself.
- `email_pattern.dfy` (`EmailPattern`): the one e-mail check both halves
  use, `^[^\s@]+@[^\s@]+\.[^\s@]+$`. It is written once as a linear test
  and proved equal, both ways, to the pattern read literally.
- `submission.dfy` (`Submission`): the four-field draft, the input ids
  that key it, and the fallback contact address.
- `client_form.dfy` (`ClientForm`): the component state as a class with
  the four state variables. `HandleChange` and `HandleSubmit` update them
  step by step, as the handlers do. `HandleSubmit` is proved against the
  specification function `AfterSubmit`, and `HandleChange` against
  `Fields.With`. The lemmas about `AfterSubmit`
  state what each submission path does. The network call is an input
  (`Ok`, `NotOk(error)` or `Threw`), and the request the form sends is an
  output.
- `contact_route.dfy` (`ContactRoute`): the handler as a pure function
  `Post`. It takes the parsed body, the environment and whether each of
  the three mail-library calls succeeds. It returns the response and the
  library calls it made. It also models the composed `mailOptions` with
  its exact HTML and text templates, and the line-feed to `<br>` rewrite.
- `end_to_end.dfy` (`EndToEnd`): the form's request fed to the handler,
  and the handler's response fed back to the form.

Three behaviours of the code worth knowing:
- A body that is not JSON gets the catch-all 500 "An unexpected error
  occurred…", not a 400.
- A valid address has exactly one `@`: the pattern admits no `@` in any
  of its three parts.
- `handleSubmit` first resets `submitStatus` to `idle`. There is no
  separate "submitting" status: `isSubmitting` is its own boolean.

## Model

| member | source | states |
|---|---|---|
| `JsStrings.IsSpace` | components/contact-form.tsx:45 | the white-space set of `\s` and `trim`; neither `@` nor `.` is in it |
| `JsStrings.Trim` | components/contact-form.tsx:37 | the result is a contiguous piece of the input, everything cut off before and after it is white space, and it neither starts nor ends with white space |
| `JsStrings.IsBlank` | components/contact-form.tsx:37 | `!s.trim()`: "" is blank, and a non-empty blank string starts and ends with white space |
| `JsStrings.TrimStart` | components/contact-form.tsx:37 | the result is a suffix of the input, and everything removed in front of it is white space |
| `JsStrings.TrimEnd` | components/contact-form.tsx:37 | the result is a prefix of the input, and everything removed behind it is white space |
| `JsStrings.BlankIffAllSpace` | components/contact-form.tsx:37 | `!s.trim()` holds exactly when every character of `s` is white space, "" included |
| `EmailPattern.IndexOf` | app/api/contact/route.ts:14-15 | finds the first occurrence of a character, or the length when there is none |
| `EmailPattern.IsValidEmail` | app/api/contact/route.ts:14-15 | `emailRegex.test(s)`, used by both halves; an accepted string has no white space and at least 5 characters |
| `EmailPattern.ValidEmailMatchesPattern` | app/api/contact/route.ts:14-15 | the e-mail test accepts exactly the strings that split as local `@` host `.` tld, each part a non-empty run without white space or `@` |
| `EmailPattern.ValidEmailIsMatch` | app/api/contact/route.ts:14-15 | every accepted string has such a split, at its one `@` and an inner `.` of the domain |
| `EmailPattern.MatchIsValidEmail` | components/contact-form.tsx:45-46 | every such split makes the test accept |
| `EmailPattern.FirstIndex` | app/api/contact/route.ts:14 | an `@` with no `@` before it is the one the test splits at |
| `EmailPattern.ValidEmailHasNoSpace` | components/contact-form.tsx:45-46 | an accepted address has no white space anywhere, so none at either end |
| `EmailPattern.ValidEmailHasOneAt` | app/api/contact/route.ts:14 | an accepted address holds exactly one `@` |
| `Submission.Fields.With` | components/contact-form.tsx:22-28 | the named field takes the new value and the other three keep theirs |
| `ClientForm.AnyBlank` | components/contact-form.tsx:37 | the first guard fires exactly when some field holds nothing but white space |
| `ClientForm.PassesLocalChecks` | components/contact-form.tsx:37-51 | a draft that passes both guards has no empty field and an address without white space |
| `ClientForm.ServerErrorText` | components/contact-form.tsx:74 | the shown text is the server's `error` when it is non-empty, and "Failed to send message" when it is missing or empty; it is never empty |
| `ClientForm.AfterSubmit` | components/contact-form.tsx:30-85 | a submission always ends with `isSubmitting` false and the status success or error. It posts exactly when both local checks pass, and posts the draft unchanged. It succeeds exactly when they pass and the response is ok. Success clears the draft; every error keeps it |
| `ClientForm.BlankFieldRejected` | components/contact-form.tsx:37-42 | a field empty after trimming gives error "Please fill in all fields", with no request and the draft kept, whatever the e-mail |
| `ClientForm.WhitespaceFieldRejected` | components/contact-form.tsx:37-42 | a field of white space only is rejected in the same way |
| `ClientForm.InvalidEmailRejected` | components/contact-form.tsx:44-51 | with no blank field, an address failing the pattern gives "Please enter a valid email address", no request and the draft kept |
| `ClientForm.UntrimmedEmailRejected` | components/contact-form.tsx:37-51 | an address with a leading or trailing blank passes the blank check and then fails the untrimmed pattern test |
| `ClientForm.OkClearsDraft` | components/contact-form.tsx:64-71 | an ok response gives success, four empty fields and the empty message from the reset at the start |
| `ClientForm.NotOkKeepsDraft` | components/contact-form.tsx:72-75 | a non-ok response gives error with the server's text or the fallback, and keeps the draft |
| `ClientForm.ThrewKeepsDraft` | components/contact-form.tsx:76-81 | a thrown request or unreadable reply gives the network message, which names the contact address, and keeps the draft |
| `ClientForm.ContactForm.constructor` | components/contact-form.tsx:12-20 | the form starts with an empty draft, idle, not submitting, no message |
| `ClientForm.ContactForm.HandleChange` | components/contact-form.tsx:22-28 | only the field named by the input id changes, to the new value |
| `ClientForm.ContactForm.HandleSubmit` | components/contact-form.tsx:30-85 | the successive state updates end in the state `AfterSubmit` gives and return the request it gives; the form is left not submitting, with an error text exactly when it shows an error |
| `ContactRoute.OrEmpty` | app/api/contact/route.ts:20-22 | a set variable reads as its own value, and an unset one as "" |
| `ContactRoute.Present` | app/api/contact/route.ts:9 | a property is truthy exactly when it reads as a non-empty string |
| `ContactRoute.AllPresent` | app/api/contact/route.ts:9 | all four properties are set and non-empty |
| `ContactRoute.AcceptedInput` | app/api/contact/route.ts:9-17 | the body passes both input checks; its address then has no white space |
| `ContactRoute.NewlinesToBr` | app/api/contact/route.ts:103 | the rewritten message has no line feed and is 3 characters longer per line feed |
| `ContactRoute.NewlinesToBrAppend` | app/api/contact/route.ts:103 | rewriting a concatenation rewrites each part |
| `ContactRoute.NewlinesToBrNoNewline` | app/api/contact/route.ts:103 | a message without line feeds is left as it is |
| `ContactRoute.NewlinesToBrChar` | app/api/contact/route.ts:103 | a line feed becomes `<br>` and any other character stays |
| `ContactRoute.TransportFor` | app/api/contact/route.ts:44-56 | the transporter uses port 587 with `secure` false (STARTTLS) and authenticates as the sender with the app password |
| `ContactRoute.HtmlBody` | app/api/contact/route.ts:88-118 | the `html` template with its five values; the message is rewritten, so each line feed adds 3 characters |
| `ContactRoute.TextBody` | app/api/contact/route.ts:119-130 | the `text` template with its five values, the message verbatim |
| `ContactRoute.ComposeMail` | app/api/contact/route.ts:84-131 | the mail goes to the recipient, replies go to the submitted address, and the subject is "Portfolio Contact: " followed by the submitted subject. The sender carries the fixed display name |
| `ContactRoute.ComposedMailCarriesSubmission` | app/api/contact/route.ts:88-130 | the text body holds the message verbatim and the HTML body holds it rewritten. Both hold the name, the address and the subject |
| `ContactRoute.Post` | app/api/contact/route.ts:4-165 | the status is 200, 400, 500 or 503, and 200 exactly when the body is a message. Error texts are non-empty. A transporter is built only for accepted input with a password set. Mail is sent only after construction and verification succeed. A 200 means the send was made and succeeded |
| `ContactRoute.PostAsWritten` | app/api/contact/route.ts:42-65 | with a library that has no `createTransporter`, no submission is answered 200 and nothing is sent; accepted input with a password gets the configuration 500 |
| `ContactRoute.UnparseableBodyIsUnexpected` | app/api/contact/route.ts:156-163 | a body that cannot be read gives the catch-all 500 with no library call |
| `ContactRoute.MissingFieldRejected` | app/api/contact/route.ts:9-11 | "All fields are required" (400) is given exactly when some property is missing or empty, before the e-mail check and with no library call |
| `ContactRoute.BlankFieldNotRejected` | app/api/contact/route.ts:9-11 | the server does not trim: a property of white space only passes the required check |
| `ContactRoute.InvalidEmailRejected` | app/api/contact/route.ts:13-17 | with all properties present, "Invalid email format" (400) is given exactly when the address fails the pattern, with no library call |
| `ContactRoute.AcceptedInputNotRejected` | app/api/contact/route.ts:9-17 | input that passes both checks is answered with 200, 500 or 503, never 400 |
| `ContactRoute.MissingPasswordUnavailable` | app/api/contact/route.ts:30-39 | an unset or empty app password gives the 503 before any transporter is built |
| `ContactRoute.TransportConfigured` | app/api/contact/route.ts:44-56 | past the password check, the first call builds the transporter on port 587, not secure, with the sender and the password |
| `ContactRoute.ConstructionFailure` | app/api/contact/route.ts:57-65 | a failed construction gives the configuration 500 after exactly one call, and nothing is sent |
| `ContactRoute.VerifyFailureNeverSends` | app/api/contact/route.ts:68-81 | a failed or timed-out verification gives the 503, and the send step is never reached: the outcome of sending makes no difference |
| `ContactRoute.SendFailureReported` | app/api/contact/route.ts:147-155 | a failed or timed-out send gives the send 500 |
| `ContactRoute.SuccessExactly` | app/api/contact/route.ts:135-146 | 200 is given exactly when the input is accepted, the password is set and all three calls succeed. The body is the fixed acknowledgement. The mail sent goes to the recipient, with the prefixed subject and the submitter as reply-to |
| `ContactRoute.FailuresNameContact` | app/api/contact/route.ts:30-163 | every 500 and 503 error text contains the fallback contact address |
| `EndToEnd.Transmit` | components/contact-form.tsx:54-60 | the posted JSON reaches the handler with all four strings as sent |
| `EndToEnd.Deliver` | components/contact-form.tsx:62-64 | `response.ok` holds exactly for a 2xx status, and a JSON error text is passed on |
| `EndToEnd.ClientRequestPassesServerChecks` | app/api/contact/route.ts:9-17 | whatever the form posts passes the server's input checks and is never answered with a 400 |
| `EndToEnd.SubmissionRoundTrip` | components/contact-form.tsx:53-84 | end to end, the form shows success exactly when the handler answered 200, and then clears the draft. Otherwise the answer was a 500 or 503, the draft is kept, and the form shows the handler's own error text, which names the contact address |

## Findings

| source | as written | input that shows it | evidently intended | confidence | as-written member | corrected member |
|---|---|---|---|---|---|---|
| app/api/contact/route.ts:44 | calls `nodemailer.createTransporter(...)`, but nodemailer's factory is `createTransport`; a missing function throws a TypeError that lines 57-65 turn into the configuration 500 | any accepted submission with `SMTP_APP_PASSWORD` set | `nodemailer.createTransport(...)`, so verify and send are reached and a 200 is possible | not executed; the mail library is not part of this model, so this depends on its version | `ContactRoute.PostAsWritten` | `ContactRoute.SuccessExactly` |

The rest of the model uses `ContactRoute.Post`, in which building the
transporter is an input that can succeed.

## Left out

- Rendering: the JSX of the form, its status banners and the disabled
  inputs are not modelled. The double-submit guard through
  `disabled={isSubmitting}` is UI concurrency.
- `handleDirectEmail` is left out. It only navigates the browser to a
  `mailto:` link.
- `ClientForm.ContactForm.HandleSubmit`: the model does not show the state
  while the request is in flight (`isSubmitting` true), because the
  network outcome is supplied at once.
- React's asynchronous state updates are not modelled. The handler reads
  the draft of the current render, which is taken to be the current state.
- `fetch`, `response.json()`, nodemailer and `process.env` are foreign I/O.
  Their results are inputs: `FetchOutcome`, `StepOutcome` and `Env`.
- The SMTP protocol behind the transporter is not modelled. Its
  options are kept only as the recorded `TransportOptions`.
- The `Promise.race` deadlines of 10000 ms for verification and 15000 ms
  for sending are left out, because timing is not modelled. A timeout is a
  `Failed` outcome of that step.
- EndToEnd.Transmit: JSON encoding and decoding are not modelled. The hop
  is assumed lossless, which holds for string fields; its contract states
  that assumption and is not a proved property.
- EndToEnd.Deliver: `fetch` and `response.json()` are not modelled. Its
  contract states two assumptions about them: `response.ok` holds exactly
  for a 2xx status, as the Fetch standard defines it, and `data.error` is
  the `error` text of the handler's JSON body.
- Server-side logging (`console.log`, `console.error`) is left out.
- Property values that are not strings are left out: a number, say, where
  a string is expected, or a `message` on which `.replace` would throw.
  A JSON `null` body makes the destructuring throw and is covered by
  `Unparseable`.
- `app/page.tsx` is not part of this model: it is static markup.
- `components/bio-animation.tsx` and `components/sakura-background.tsx` are
  not part of this model. They are cosmetic canvas animations built on
  randomness, floating point and animation frames.
