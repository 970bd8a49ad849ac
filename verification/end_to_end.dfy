/**
 * The client and the server put together: the form posts its draft as
 * JSON, the handler answers, and the form reads the answer. The HTTP hop
 * is modelled as lossless in both directions.
 */
module EndToEnd {
  import opened Options
  import opened JsStrings
  import opened Submission
  import CF = ClientForm
  import CR = ContactRoute

  /** `JSON.stringify(formData)` read back by `request.json()`: the four
      strings arrive as they were sent. */
  function Transmit(f: Fields): (body: CR.RequestBody)
    ensures body.Json? && body.name == Some(f.name) && body.email == Some(f.email)
    ensures body.subject == Some(f.subject) && body.message == Some(f.message)
  {
    CR.Json(Some(f.name), Some(f.email), Some(f.subject), Some(f.message))
  }

  /** What `fetch` and `response.json()` make of a handler response:
      `response.ok` holds for a 2xx status, and the error text is read
      from the JSON body. */
  function Deliver(r: CR.Response): (o: CF.FetchOutcome)
    ensures o.Ok? <==> 200 <= r.status < 300
    ensures !o.Ok? && r.body.ErrorBody? ==> o == CF.NotOk(Some(r.body.error))
  {
    if 200 <= r.status < 300 then CF.Ok
    else if r.body.ErrorBody? then CF.NotOk(Some(r.body.error))
    else CF.NotOk(None)
  }

  /** The local checks are at least as strict as the server's input
      checks: whatever the form posts is never refused with a 400. */
  lemma ClientRequestPassesServerChecks(draft: Fields, outcome: CF.FetchOutcome,
                                        env: CR.Env, create: CR.StepOutcome, verify: CR.StepOutcome, send: CR.StepOutcome)
    requires CF.AfterSubmit(draft, outcome).request.Some?
    ensures CR.AcceptedInput(Transmit(draft))
    ensures CR.Post(Transmit(draft), env, create, verify, send).response.status != 400
  {
    assert CF.PassesLocalChecks(draft);
    CR.AcceptedInputNotRejected(Transmit(draft), env, create, verify, send);
  }

  /** One submission end to end: the form shows success exactly when the
      handler answered 200, and then clears the draft; otherwise it keeps
      the draft and shows the handler's own error text, which names the
      contact address. */
  lemma SubmissionRoundTrip(draft: Fields, env: CR.Env, create: CR.StepOutcome, verify: CR.StepOutcome, send: CR.StepOutcome)
    requires CF.PassesLocalChecks(draft)
    ensures var h := CR.Post(Transmit(draft), env, create, verify, send);
      var e := CF.AfterSubmit(draft, Deliver(h.response));
      (e.after.submitStatus == CF.Success <==> h.response.status == 200) &&
      (h.response.status == 200 ==> e.after.formData == EmptyFields && e.after.errorMessage == "") &&
      (h.response.status != 200 ==>
        h.response.status in {500, 503} && e.after.formData == draft &&
        e.after.errorMessage == h.response.body.error &&
        Contains(e.after.errorMessage, ContactAddress))
  {
    ClientRequestPassesServerChecks(draft, CF.Ok, env, create, verify, send);
    CR.FailuresNameContact(Transmit(draft), env, create, verify, send);
  }
}
