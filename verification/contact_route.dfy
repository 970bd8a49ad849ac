/**
 * The server side of the contact pipeline: the `POST` handler of the
 * contact endpoint, a chain of checks that returns at the first failure.
 * The environment variables are an input; the three calls into the mail
 * library (building the transporter, verifying it, sending) are inputs
 * saying whether each succeeds, and the handler reports which of them it
 * made, so that "never reached" can be stated.
 */
module ContactRoute {
  import opened Options
  import opened JsStrings
  import opened EmailPattern
  import opened Submission

  /** The result of `await request.json()` followed by destructuring the
      four properties: a body that is not JSON, or the JSON value `null`,
      whose destructuring throws; otherwise the four properties, each
      possibly missing (any other non-object JSON value has all four
      missing). */
  datatype RequestBody =
    | Unparseable
    | Json(name: Option<string>, email: Option<string>, subject: Option<string>, message: Option<string>)

  /** The three environment variables the handler reads, each possibly unset. */
  datatype Env = Env(smtpAppPassword: Option<string>, recipientEmail: Option<string>, senderEmail: Option<string>)

  /** How one call into the mail library ends; a timeout that wins the race
      against verification or sending is a `Failed`. */
  datatype StepOutcome = Done | Failed

  datatype ResponseBody = MessageBody(message: string) | ErrorBody(error: string)

  /** A JSON response and its HTTP status. */
  datatype Response = Response(status: int, body: ResponseBody)

  /** The options the transporter is built with. */
  datatype TransportOptions = TransportOptions(
    host: string, port: nat, secure: bool, user: string, pass: string,
    connectionTimeout: nat, greetingTimeout: nat, socketTimeout: nat)

  /** `mailOptions`: the message handed to the transporter. */
  datatype MailOptions = MailOptions(from: string, to: string, subject: string, html: string, text: string, replyTo: string)

  /** A call the handler makes into the mail library. */
  datatype Call = CreateTransport(options: TransportOptions) | VerifyTransport | SendMail(mail: MailOptions)

  /** The response together with the library calls made on the way. */
  datatype Handled = Handled(response: Response, calls: seq<Call>)

  const AllFieldsRequired: string := "All fields are required"
  const InvalidEmailFormat: string := "Invalid email format"
  const TemporarilyUnavailable: string :=
    "Email service is temporarily unavailable. Please try again later or contact directly at " + ContactAddress
  const ConfigurationError: string :=
    "Email service configuration error. Please contact directly at " + ContactAddress
  const CurrentlyUnavailable: string :=
    "Email service is currently unavailable. Please contact directly at " + ContactAddress
  const SendFailure: string :=
    "Failed to send message. Please try again or contact directly at " + ContactAddress
  const UnexpectedError: string :=
    "An unexpected error occurred. Please contact directly at " + ContactAddress
  const SentSuccessfully: string := "Message sent successfully! I'll get back to you soon."

  const SmtpHost: string := "smtp.gmail.com"
  /** The mail submission port; `secure: false` means the connection is
      upgraded with STARTTLS rather than opened over TLS. */
  const SubmissionPort: nat := 587
  const ConnectionTimeoutMs: nat := 10000
  const GreetingTimeoutMs: nat := 5000
  const SocketTimeoutMs: nat := 10000

  const SubjectPrefix: string := "Portfolio Contact: "

  /** `process.env.X || ""`. */
  function OrEmpty(v: Option<string>): (r: string)
    ensures r == "" <==> v.None? || v.value == ""
    ensures v.Some? ==> r == v.value
  {
    if v.Some? then v.value else ""
  }

  /** A destructured property is truthy: present and not "". The server
      does not trim, so "  " is present. */
  predicate Present(v: Option<string>)
    ensures Present(v) <==> OrEmpty(v) != ""
  {
    v.Some? && v.value != ""
  }

  /** All four properties are present. */
  predicate AllPresent(body: RequestBody)
    requires body.Json?
    ensures AllPresent(body) ==> OrEmpty(body.name) != "" && OrEmpty(body.email) != ""
    ensures AllPresent(body) ==> OrEmpty(body.subject) != "" && OrEmpty(body.message) != ""
  {
    Present(body.name) && Present(body.email) && Present(body.subject) && Present(body.message)
  }

  /** The body gets through the two input checks. */
  predicate AcceptedInput(body: RequestBody)
    ensures AcceptedInput(body) ==> body.Json? && body.email.Some? && NoSpace(body.email.value)
  {
    body.Json? && AllPresent(body) && IsValidEmail(body.email.value)
  }

  /** `message.replace(/\n/g, "<br>")`: every line feed becomes a `<br>`
      tag, so the result has no line feed left and is three characters
      longer per line feed. */
  function NewlinesToBr(message: string): (r: string)
    ensures '\n' !in r
    ensures |r| == |message| + 3 * multiset(message)['\n']
  {
    if message == [] then []
    else
      assert message == [message[0]] + message[1..];
      (if message[0] == '\n' then "<br>" else [message[0]]) + NewlinesToBr(message[1..])
  }

  /** The rewrite works piecewise: rewriting a concatenation rewrites each
      part. */
  lemma {:induction false} NewlinesToBrAppend(a: string, b: string)
    ensures NewlinesToBr(a + b) == NewlinesToBr(a) + NewlinesToBr(b)
  {
    if a == [] {
      assert a + b == b;
    } else {
      var c, rest := a[0], a[1..];
      assert a == [c] + rest;
      assert a + b == [c] + (rest + b);
      var head := if c == '\n' then "<br>" else [c];
      NewlinesToBrCons(c, rest);
      NewlinesToBrCons(c, rest + b);
      NewlinesToBrAppend(rest, b);
      ConcatAssoc(head, NewlinesToBr(rest), NewlinesToBr(b));
    }
  }

  /** Concatenation regroups freely. */
  lemma ConcatAssoc(x: string, y: string, z: string)
    ensures x + (y + z) == (x + y) + z
  {
  }

  /** One step of the rewrite: the first character, then the rest. */
  lemma NewlinesToBrCons(c: char, rest: string)
    ensures NewlinesToBr([c] + rest) == (if c == '\n' then "<br>" else [c]) + NewlinesToBr(rest)
  {
    assert ([c] + rest)[1..] == rest;
  }

  /** A message without line feeds is embedded in the HTML as it is. */
  lemma {:induction false} NewlinesToBrNoNewline(message: string)
    requires '\n' !in message
    ensures NewlinesToBr(message) == message
  {
    if message != [] {
      NewlinesToBrNoNewline(message[1..]);
    }
  }

  /** Each single character is rewritten on its own: a line feed to `<br>`,
      anything else to itself. Together with NewlinesToBrAppend this fixes
      the rewrite of every string. */
  lemma NewlinesToBrChar(c: char)
    ensures NewlinesToBr([c]) == if c == '\n' then "<br>" else [c]
  {
    assert [c][1..] == [];
  }

  const HtmlPart0: string :=
    "\n" +
    "        <div style=\"font-family: Arial, sans-serif; max-width: 600px; margin: 0 auto;\">\n" +
    "          <h2 style=\"color: #0f766e; border-bottom: 2px solid #0f766e; padding-bottom: 10px;\">\n" +
    "            New Contact Form Submission\n" +
    "          </h2>\n" +
    "          \n" +
    "          <div style=\"background-color: #f8fafc; padding: 20px; border-radius: 8px; margin: 20px 0;\">\n" +
    "            <h3 style=\"color: #334155; margin-top: 0;\">Contact Details:</h3>\n" +
    "            <p><strong>Name:</strong> "
  const HtmlPart1: string :=
    "</p>\n" +
    "            <p><strong>Email:</strong> "
  const HtmlPart2: string :=
    "</p>\n" +
    "            <p><strong>Subject:</strong> "
  const HtmlPart3: string :=
    "</p>\n" +
    "          </div>\n" +
    "          \n" +
    "          <div style=\"background-color: #ffffff; padding: 20px; border: 1px solid #e2e8f0; border-radius: 8px;\">\n" +
    "            <h3 style=\"color: #334155; margin-top: 0;\">Message:</h3>\n" +
    "            <p style=\"line-height: 1.6; color: #475569;\">"
  const HtmlPart4: string :=
    "</p>\n" +
    "          </div>\n" +
    "          \n" +
    "          <div style=\"margin-top: 20px; padding: 15px; background-color: #f0fdfa; border-left: 4px solid #14b8a6; border-radius: 4px;\">\n" +
    "            <p style=\"margin: 0; color: #0f766e; font-size: 14px;\">\n" +
    "              <strong>Reply to:</strong> "
  const HtmlPart5: string :=
    "\n" +
    "            </p>\n" +
    "          </div>\n" +
    "          \n" +
    "          <hr style=\"margin: 30px 0; border: none; border-top: 1px solid #e2e8f0;\">\n" +
    "          \n" +
    "          <p style=\"color: #64748b; font-size: 12px; text-align: center;\">\n" +
    "            This email was sent from your portfolio website contact form.\n" +
    "          </p>\n" +
    "        </div>\n" +
    "      "

  const TextPart0: string :=
    "\n" +
    "        New Contact Form Submission\n" +
    "        \n" +
    "        Name: "
  const TextPart1: string :=
    "\n" +
    "        Email: "
  const TextPart2: string :=
    "\n" +
    "        Subject: "
  const TextPart3: string :=
    "\n" +
    "        \n" +
    "        Message:\n" +
    "        "
  const TextPart4: string :=
    "\n" +
    "        \n" +
    "        Reply to: "
  const TextPart5: string :=
    "\n" +
    "      "

  /** The HTML rendering: the details, the message with its line feeds
      turned into `<br>`, and a reply-to line. */
  function HtmlBody(name: string, email: string, subject: string, message: string): (h: string)
    ensures |h| == |HtmlPart0| + |name| + |HtmlPart1| + 2 * |email| + |HtmlPart2| + |subject| +
                   |HtmlPart3| + |message| + 3 * multiset(message)['\n'] + |HtmlPart4| + |HtmlPart5|
  {
    HtmlPart0 + name + HtmlPart1 + email + HtmlPart2 + subject +
    HtmlPart3 + NewlinesToBr(message) + HtmlPart4 + email + HtmlPart5
  }

  /** The plain-text rendering, with the message verbatim. */
  function TextBody(name: string, email: string, subject: string, message: string): (t: string)
    ensures |t| == |TextPart0| + |name| + |TextPart1| + 2 * |email| + |TextPart2| + |subject| +
                   |TextPart3| + |message| + |TextPart4| + |TextPart5|
  {
    TextPart0 + name + TextPart1 + email + TextPart2 + subject +
    TextPart3 + message + TextPart4 + email + TextPart5
  }

  /** The options the transporter is built with: the submission port with
      STARTTLS, authenticated as the sender with the app password. */
  function TransportFor(sender: string, password: string): (t: TransportOptions)
    ensures t.port == 587 && !t.secure && t.host == SmtpHost
    ensures t.user == sender && t.pass == password
  {
    TransportOptions(SmtpHost, SubmissionPort, false, sender, password,
                     ConnectionTimeoutMs, GreetingTimeoutMs, SocketTimeoutMs)
  }

  /** `mailOptions`: addressed to the recipient, from the sender under a
      fixed display name, with the prefixed subject, and with replies
      going to whoever filled in the form. */
  function ComposeMail(name: string, email: string, subject: string, message: string,
                       sender: string, recipient: string): (m: MailOptions)
    ensures m.to == recipient && m.replyTo == email
    ensures |m.subject| == |SubjectPrefix| + |subject|
    ensures m.subject[..|SubjectPrefix|] == SubjectPrefix && m.subject[|SubjectPrefix|..] == subject
    ensures m.from == "\"Portfolio Contact Form\" <" + sender + ">"
  {
    MailOptions(
      "\"Portfolio Contact Form\" <" + sender + ">",
      recipient,
      SubjectPrefix + subject,
      HtmlBody(name, email, subject, message),
      TextBody(name, email, subject, message),
      email)
  }

  /** A template with five holes contains each value put into its first
      four holes. The template is built up piece by piece: each value is
      contained once it is appended, and stays contained as pieces follow. */
  lemma TemplateHoles(p0: string, x0: string, p1: string, x1: string, p2: string, x2: string,
                      p3: string, x3: string, p4: string, x4: string, p5: string)
    ensures var s := p0 + x0 + p1 + x1 + p2 + x2 + p3 + x3 + p4 + x4 + p5;
      Contains(s, x0) && Contains(s, x1) && Contains(s, x2) && Contains(s, x3)
  {
    var t0 := p0 + x0;
    EndsWithContains(p0, x0);
    var t1 := t0 + p1;
    ExtendKeepsContains(t0, p1);
    var t2 := t1 + x1;
    ExtendKeepsContains(t1, x1);
    EndsWithContains(t1, x1);
    var t3 := t2 + p2;
    ExtendKeepsContains(t2, p2);
    var t4 := t3 + x2;
    ExtendKeepsContains(t3, x2);
    EndsWithContains(t3, x2);
    var t5 := t4 + p3;
    ExtendKeepsContains(t4, p3);
    var t6 := t5 + x3;
    ExtendKeepsContains(t5, x3);
    EndsWithContains(t5, x3);
    var t7 := t6 + p4;
    ExtendKeepsContains(t6, p4);
    var t8 := t7 + x4;
    ExtendKeepsContains(t7, x4);
    ExtendKeepsContains(t8, p5);
  }

  /** Both renderings carry the submission: the text one holds the message
      verbatim, the HTML one holds it with `<br>` for line feeds, and both
      hold the name, the address and the subject. */
  lemma ComposedMailCarriesSubmission(name: string, email: string, subject: string, message: string,
                                      sender: string, recipient: string)
    ensures var m := ComposeMail(name, email, subject, message, sender, recipient);
      Contains(m.text, message) && Contains(m.text, name) &&
      Contains(m.text, email) && Contains(m.text, subject) &&
      Contains(m.html, NewlinesToBr(message)) && Contains(m.html, name) &&
      Contains(m.html, email) && Contains(m.html, subject)
  {
    TemplateHoles(TextPart0, name, TextPart1, email, TextPart2, subject, TextPart3, message, TextPart4, email, TextPart5);
    TemplateHoles(HtmlPart0, name, HtmlPart1, email, HtmlPart2, subject, HtmlPart3, NewlinesToBr(message), HtmlPart4, email, HtmlPart5);
  }

  /** The library was asked to send a message. */
  predicate SendsMail(calls: seq<Call>) {
    exists k | 0 <= k < |calls| :: calls[k].SendMail?
  }

  /** A transporter was built. */
  predicate BuildsTransport(calls: seq<Call>) {
    exists k | 0 <= k < |calls| :: calls[k].CreateTransport?
  }

  /** A failure response: the status with `{ error: text }`. */
  function ErrorResponse(status: int, text: string): Response {
    Response(status, ErrorBody(text))
  }

  /** The `POST` handler. Each check returns at once on failure, and the
      outer `catch` turns an unreadable body into a generic 500. */
  function Post(body: RequestBody, env: Env, create: StepOutcome, verify: StepOutcome, send: StepOutcome): (h: Handled)
    ensures h.response.status in {200, 400, 500, 503}
    ensures h.response.status == 200 <==> h.response.body.MessageBody?
    ensures h.response.body.ErrorBody? ==> h.response.body.error != ""
    ensures BuildsTransport(h.calls) ==> AcceptedInput(body) && OrEmpty(env.smtpAppPassword) != ""
    ensures SendsMail(h.calls) ==> create == Done && verify == Done
    ensures h.response.status == 200 ==> SendsMail(h.calls) && send == Done
  {
    match body
    case Unparseable => Handled(ErrorResponse(500, UnexpectedError), [])
    case Json(name, email, subject, message) =>
      if !Present(name) || !Present(email) || !Present(subject) || !Present(message) then
        Handled(ErrorResponse(400, AllFieldsRequired), [])
      else if !IsValidEmail(email.value) then
        Handled(ErrorResponse(400, InvalidEmailFormat), [])
      else
        var password := OrEmpty(env.smtpAppPassword);
        var recipient := OrEmpty(env.recipientEmail);
        var sender := OrEmpty(env.senderEmail);
        if password == "" then
          Handled(ErrorResponse(503, TemporarilyUnavailable), [])
        else
          var build := CreateTransport(TransportFor(sender, password));
          if create.Failed? then
            Handled(ErrorResponse(500, ConfigurationError), [build])
          else if verify.Failed? then
            Handled(ErrorResponse(503, CurrentlyUnavailable), [build, VerifyTransport])
          else
            var mail := ComposeMail(name.value, email.value, subject.value, message.value, sender, recipient);
            var calls := [build, VerifyTransport, SendMail(mail)];
            assert calls[2].SendMail?;
            if send.Failed? then
              Handled(ErrorResponse(500, SendFailure), calls)
            else
              Handled(Response(200, MessageBody(SentSuccessfully)), calls)
  }

  /** The handler as written, if the mail library has no factory named
      `createTransporter` (nodemailer's is `createTransport`): the call
      throws, the inner `catch` answers, and no submission can succeed. */
  function PostAsWritten(body: RequestBody, env: Env, verify: StepOutcome, send: StepOutcome): (h: Handled)
    ensures h.response.status != 200 && !SendsMail(h.calls)
    ensures AcceptedInput(body) && OrEmpty(env.smtpAppPassword) != "" ==>
      h.response == ErrorResponse(500, ConfigurationError)
  {
    Post(body, env, Failed, verify, send)
  }

  /** A body that is not JSON ends in the catch-all 500 before anything
      else is looked at. */
  lemma UnparseableBodyIsUnexpected(env: Env, create: StepOutcome, verify: StepOutcome, send: StepOutcome)
    ensures Post(Unparseable, env, create, verify, send) == Handled(ErrorResponse(500, UnexpectedError), [])
  {
  }

  /** The required-fields 400 is given exactly when some property is
      missing or empty, whatever the e-mail looks like, and nothing is
      called. */
  lemma MissingFieldRejected(body: RequestBody, env: Env, create: StepOutcome, verify: StepOutcome, send: StepOutcome)
    requires body.Json?
    ensures Post(body, env, create, verify, send).response == ErrorResponse(400, AllFieldsRequired) <==> !AllPresent(body)
    ensures !AllPresent(body) ==> Post(body, env, create, verify, send).calls == []
  {
  }

  /** The server does not trim: a property of white space only passes the
      required-fields check. */
  lemma BlankFieldNotRejected(body: RequestBody, env: Env, create: StepOutcome, verify: StepOutcome, send: StepOutcome)
    requires body.Json? && body.name.Some? && body.name.value != "" && AllSpace(body.name.value)
    requires Present(body.email) && Present(body.subject) && Present(body.message)
    ensures Post(body, env, create, verify, send).response != ErrorResponse(400, AllFieldsRequired)
  {
  }

  /** Once all properties are present, the format 400 is given exactly when
      the address fails the pattern, and nothing is called. */
  lemma InvalidEmailRejected(body: RequestBody, env: Env, create: StepOutcome, verify: StepOutcome, send: StepOutcome)
    requires body.Json? && AllPresent(body)
    ensures Post(body, env, create, verify, send).response == ErrorResponse(400, InvalidEmailFormat) <==> !IsValidEmail(body.email.value)
    ensures !IsValidEmail(body.email.value) ==> Post(body, env, create, verify, send).calls == []
  {
  }

  /** Input that passes both checks is never answered with a 400. */
  lemma AcceptedInputNotRejected(body: RequestBody, env: Env, create: StepOutcome, verify: StepOutcome, send: StepOutcome)
    requires AcceptedInput(body)
    ensures Post(body, env, create, verify, send).response.status in {200, 500, 503}
  {
  }

  /** Without an app password the service is unavailable, and this is
      decided before any transporter is built. */
  lemma MissingPasswordUnavailable(body: RequestBody, env: Env, create: StepOutcome, verify: StepOutcome, send: StepOutcome)
    requires AcceptedInput(body) && OrEmpty(env.smtpAppPassword) == ""
    ensures Post(body, env, create, verify, send) == Handled(ErrorResponse(503, TemporarilyUnavailable), [])
  {
  }

  /** The transporter is built on the submission port with STARTTLS and the
      sender's credentials. */
  lemma TransportConfigured(body: RequestBody, env: Env, create: StepOutcome, verify: StepOutcome, send: StepOutcome)
    requires AcceptedInput(body) && OrEmpty(env.smtpAppPassword) != ""
    ensures var h := Post(body, env, create, verify, send);
      |h.calls| > 0 && h.calls[0].CreateTransport? &&
      h.calls[0].options.port == 587 && !h.calls[0].options.secure &&
      h.calls[0].options.user == OrEmpty(env.senderEmail) &&
      h.calls[0].options.pass == OrEmpty(env.smtpAppPassword)
  {
  }

  /** A transporter that cannot be built gives the configuration 500. */
  lemma ConstructionFailure(body: RequestBody, env: Env, verify: StepOutcome, send: StepOutcome)
    requires AcceptedInput(body) && OrEmpty(env.smtpAppPassword) != ""
    ensures var h := Post(body, env, Failed, verify, send);
      h.response == ErrorResponse(500, ConfigurationError) && |h.calls| == 1 && !SendsMail(h.calls)
  {
  }

  /** A failed or timed-out verification gives a 503 and the message is
      never sent, so how sending would have gone makes no difference. */
  lemma VerifyFailureNeverSends(body: RequestBody, env: Env, send: StepOutcome, send': StepOutcome)
    requires AcceptedInput(body) && OrEmpty(env.smtpAppPassword) != ""
    ensures Post(body, env, Done, Failed, send).response == ErrorResponse(503, CurrentlyUnavailable)
    ensures !SendsMail(Post(body, env, Done, Failed, send).calls)
    ensures Post(body, env, Done, Failed, send) == Post(body, env, Done, Failed, send')
  {
  }

  /** A failed or timed-out send gives the send 500. */
  lemma SendFailureReported(body: RequestBody, env: Env)
    requires AcceptedInput(body) && OrEmpty(env.smtpAppPassword) != ""
    ensures Post(body, env, Done, Done, Failed).response == ErrorResponse(500, SendFailure)
  {
  }

  /** The handler answers 200 exactly when the input is accepted, the
      password is set and all three library calls succeed; the answer is
      the fixed acknowledgement, and the message sent goes to the
      recipient, carries the prefixed subject and replies to the submitter. */
  lemma SuccessExactly(body: RequestBody, env: Env, create: StepOutcome, verify: StepOutcome, send: StepOutcome)
    ensures var h := Post(body, env, create, verify, send);
      h.response.status == 200 <==>
        AcceptedInput(body) && OrEmpty(env.smtpAppPassword) != "" &&
        create == Done && verify == Done && send == Done
    ensures var h := Post(body, env, create, verify, send);
      h.response.status == 200 ==>
        h.response.body == MessageBody(SentSuccessfully) &&
        |h.calls| == 3 && h.calls[2].SendMail? &&
        h.calls[2].mail.to == OrEmpty(env.recipientEmail) &&
        h.calls[2].mail.replyTo == body.email.value &&
        h.calls[2].mail.subject == SubjectPrefix + body.subject.value
  {
    var password := OrEmpty(env.smtpAppPassword);
    if AcceptedInput(body) && password != "" && create == Done && verify == Done && send == Done {
      AllStepsSucceed(body, env);
    } else {
      SomeStepFails(body, env, create, verify, send);
    }
  }

  /** With accepted input, a password and three successful calls, the
      handler builds, verifies and sends, then acknowledges. */
  lemma AllStepsSucceed(body: RequestBody, env: Env)
    requires AcceptedInput(body) && OrEmpty(env.smtpAppPassword) != ""
    ensures Post(body, env, Done, Done, Done) ==
      Handled(Response(200, MessageBody(SentSuccessfully)),
        [CreateTransport(TransportFor(OrEmpty(env.senderEmail), OrEmpty(env.smtpAppPassword))),
         VerifyTransport,
         SendMail(ComposeMail(body.name.value, body.email.value, body.subject.value, body.message.value,
                              OrEmpty(env.senderEmail), OrEmpty(env.recipientEmail)))])
  {
    assert Present(body.name) && Present(body.email) && Present(body.subject) && Present(body.message);
  }

  /** Rejected input, a missing password or any failed call rules out
      the 200. */
  lemma SomeStepFails(body: RequestBody, env: Env, create: StepOutcome, verify: StepOutcome, send: StepOutcome)
    requires !(AcceptedInput(body) && OrEmpty(env.smtpAppPassword) != "" &&
               create == Done && verify == Done && send == Done)
    ensures Post(body, env, create, verify, send).response.status != 200
  {
  }

  /** Every 500 and 503 names the fallback contact address. */
  lemma FailuresNameContact(body: RequestBody, env: Env, create: StepOutcome, verify: StepOutcome, send: StepOutcome)
    ensures var r := Post(body, env, create, verify, send).response;
      r.status in {500, 503} ==> r.body.ErrorBody? && Contains(r.body.error, ContactAddress)
  {
    EndsWithContains("Email service is temporarily unavailable. Please try again later or contact directly at ", ContactAddress);
    EndsWithContains("Email service configuration error. Please contact directly at ", ContactAddress);
    EndsWithContains("Email service is currently unavailable. Please contact directly at ", ContactAddress);
    EndsWithContains("Failed to send message. Please try again or contact directly at ", ContactAddress);
    EndsWithContains("An unexpected error occurred. Please contact directly at ", ContactAddress);
  }
}
