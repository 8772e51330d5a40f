/**
 * The form and the app-router handler together: the JSON body the form posts, what the form
 * makes of the handler's answer, and one whole submission from the submit button to the status line.
 */
module EndToEnd {
  import opened Wrappers
  import opened Text
  import opened Form
  import opened Intake
  import MongoCache
  import AppRoute

  /** `JSON.stringify(form)` as the handler destructures it: all six properties present. */
  function ToSubmission(f: FormData): Submission {
    Submission(Some(f.name), Some(f.email), Some(f.phone), Some(f.service), Some(f.message), Some(f.recaptchaToken))
  }

  /** What `fetch` and `res.json()` hand the form: `res.ok` for a 2xx status, and the text of the
      body's `message`. */
  function ClientOutcome(r: Response): (o: FetchOutcome)
    ensures o.Responded? && o.message == Some(MessageText(r.body.message))
    ensures o.ok <==> 200 <= r.status < 300
    ensures o.message.Some? && o.message.value != ""
  {
    Responded(200 <= r.status < 300, Some(MessageText(r.body.message)))
  }

  /** A form the client lets through passes the handler's token check and its field check. */
  lemma ValidFormPassesServerChecks(f: FormData)
    requires Submittable(f)
    ensures Truthy(ToSubmission(f).recaptchaToken) && AllPresent(ToSubmission(f))
  {
    assert f.name != "";
    assert f.email != "" by {
      var at, dot :| 0 < at < |f.email| && 0 < dot < |f.email| && EmailSplit(f.email, at, dot);
    }
    assert f.phone != "";
    assert f.message != "";
  }

  /** The handler's field check is weaker than the form's: a name of whitespace that the form
      refuses passes the handler. */
  lemma BlankNamePassesServerOnly(f: FormData)
    requires f.name != "" && AllSpace(f.name)
    requires f.email != "" && f.phone != "" && f.service != "" && f.message != ""
    ensures AllPresent(ToSubmission(f)) && !Submittable(f)
  {
  }

  /** How the status line reads each kind of answer the handler gives. */
  lemma StatusLine(r: Response)
    ensures 200 <= r.status < 300 ==> ResponseStatus(ClientOutcome(r)) == Submitted
    ensures !(200 <= r.status < 300) ==> ResponseStatus(ClientOutcome(r)) == MessageText(r.body.message)
  {
  }

  /** No message of the handlers reads as the form's success text, so the visitor never mistakes
      a rejection for a success. */
  lemma NoMessageReadsAsSuccess(m: Message)
    ensures MessageText(m) != Submitted
  {
    assert Submitted[0] == '\U{2705}';
    match m
    case TokenMissing => assert MessageText(m)[0] == 'r';
    case VerificationFailed => assert MessageText(m)[0] == 'r';
    case FieldsRequired => assert MessageText(m)[0] == 'A';
    case InternalError => assert MessageText(m)[0] == 'I';
    case Accepted(w) =>
      assert MessageText(m) == MessageText(Accepted(w));
    case MethodNotAllowed(_) => assert MessageText(m)[0] == 'M';
  }

  /** Once the token and the fields are present, the only answers are the success, the verification
      failure and the internal error. */
  lemma {:induction false} AnswersAfterChecks(v: Variant, b: Submission, env: Env, conn: Option<MongoCache.Connection>)
    requires Truthy(b.recaptchaToken) && AllPresent(b)
    ensures var r := Run(v, Parsed(b), env, conn).response;
      r.status == 200 || r == BadRequest(VerificationFailed) || (r.status == 500 && r.body.message == InternalError)
  {
    var body := VerifyBody(v, env.secret, b.recaptchaToken.value);
    var record, mail := RecordOf(b, env.now), MailFor(env, b);
    match env.verifier(body)
    case Threw(e) =>
    case Returned(success) =>
      if !success {
        FailedVerificationRejected(v, b, env, conn);
      } else if env.store(conn, record).Threw? {
        FailedSaveNoMail(v, b, env, conn, env.store(conn, record).message);
      } else if env.mailer(mail).Threw? {
        FailedMailAfterSave(v, b, env, conn, env.mailer(mail).message);
      } else {
        assert Run(v, Parsed(b), env, conn) == Persisted(v, b, env, conn, body);
      }
  }

  /** For a form the client lets through, the status line reads the success text exactly when the
      enquiry was stored and mailed; otherwise it shows the handler's message, which is the
      verification failure or the internal error. */
  lemma {:induction false} StatusAfterSubmit(v: Variant, f: FormData, env: Env, conn: Option<MongoCache.Connection>)
    requires Submittable(f)
    ensures var b := ToSubmission(f);
      var t := Run(v, Parsed(b), env, conn);
      var status := ResponseStatus(ClientOutcome(t.response));
      && (status == Submitted <==> Completed(t.calls))
      && (status == Submitted ==> Stored(t.calls) == [RecordOf(b, env.now)] && |Mailed(t.calls)| == 1)
      && (status != Submitted ==> status == MessageText(VerificationFailed) || status == MessageText(InternalError))
  {
    ValidFormPassesServerChecks(f);
    var b := ToSubmission(f);
    var t := Run(v, Parsed(b), env, conn);
    RunShape(v, Parsed(b), env, conn);
    AnswersAfterChecks(v, b, env, conn);
    StatusLine(t.response);
    NoMessageReadsAsSuccess(t.response.body.message);
    StoredPrefix(t.calls);
    MailedPrefix(t.calls);
  }

  /** A mail that fails after the save: the visitor reads "Internal Server Error" although the
      enquiry is stored. */
  lemma StoredButReportedAsError(v: Variant, f: FormData, env: Env, conn: Option<MongoCache.Connection>, e: string)
    requires Submittable(f)
    requires env.verifier(VerifyBody(v, env.secret, f.recaptchaToken)) == Returned(true)
    requires env.store(conn, RecordOf(ToSubmission(f), env.now)).Returned?
    requires env.mailer(MailFor(env, ToSubmission(f))) == Threw(e)
    ensures var t := Run(v, Parsed(ToSubmission(f)), env, conn);
      ResponseStatus(ClientOutcome(t.response)) == MessageText(InternalError)
      && Stored(t.calls) == [RecordOf(ToSubmission(f), env.now)]
  {
    ValidFormPassesServerChecks(f);
    FailedMailAfterSave(v, ToSubmission(f), env, conn, e);
  }

  /** The form's `res.ok` holds exactly when the handler's run completed. */
  lemma OkIffCompleted(v: Variant, req: RequestBody, env: Env, conn: Option<MongoCache.Connection>)
    ensures var t := Run(v, req, env, conn);
      ClientOutcome(t.response).ok <==> Completed(t.calls)
  {
    RunShape(v, req, env, conn);
  }

  /** The posted half of a submission: `POST` answers the valid form `f`, and the form completes
      the submit with what `fetch` makes of that answer. */
  method Deliver(c: EnquiryForm, svc: Services, env: Env, f: FormData)
    requires c.Valid() && svc.Valid() && c.form == f && Submittable(f)
    modifies c`form, c`errors, c`status, c`pendingCloses, svc, svc.cache
    ensures c.Valid() && svc.Valid()
    ensures var t := Run(AppRouter, Parsed(ToSubmission(f)), env, MongoCache.Step(old(svc.cache.State()), env.connect).result);
      && c.status == ResponseStatus(ClientOutcome(t.response))
      && svc.Snapshot() == After(old(svc.Snapshot()), t.calls, env.connect)
      && (Completed(t.calls) ==> c.form == EmptyForm && c.errors == map[])
      && (!Completed(t.calls) ==> c.form == f && c.errors == old(c.errors))
      && (old(c.errors) == map[] ==> c.errors == map[])
      && c.pendingCloses == old(c.pendingCloses) + (if Completed(t.calls) && c.floating then 1 else 0)
  {
    ghost var conn := MongoCache.Step(svc.cache.State(), env.connect).result;
    ghost var t := Run(AppRouter, Parsed(ToSubmission(f)), env, conn);
    OkIffCompleted(AppRouter, Parsed(ToSubmission(f)), env, conn);
    var response := AppRoute.Post(svc, Parsed(ToSubmission(f)), env);
    var outcome := ClientOutcome(response);
    assert outcome.Responded? && (outcome.ok <==> Completed(t.calls));
    c.CompleteSubmit(outcome);
  }

  /** One call of `handleSubmit` on the embedded or floating form, answered by `POST`
      (the browser's own `required`/`type="email"` checks, which can cancel a press before
      `handleSubmit` runs, are not part of this model):
      an invalid form sends nothing and touches no collaborator; a valid one is posted, the handler's
      run is the one `Run` describes, its errors are empty, and the form resets and the popup's close
      is scheduled only when that run completed. The popup stays as it was. */
  method SubmitEnquiry(c: EnquiryForm, svc: Services, env: Env)
    requires c.Valid() && svc.Valid()
    modifies c`form, c`errors, c`status, c`pendingCloses, c`requests, svc, svc.cache
    ensures c.Valid() && svc.Valid()
    ensures c.isOpen == old(c.isOpen)
    ensures !Submittable(old(c.form)) ==>
      c.requests == old(c.requests) && c.pendingCloses == old(c.pendingCloses) && c.errors == FormErrors(old(c.form))
    ensures !Submittable(old(c.form)) ==>
      c.status == FixErrors && c.form == old(c.form) && svc.Snapshot() == old(svc.Snapshot())
    ensures Submittable(old(c.form)) ==>
      var t := Run(AppRouter, Parsed(ToSubmission(old(c.form))), env,
                   MongoCache.Step(old(svc.cache.State()), env.connect).result);
      && c.status == ResponseStatus(ClientOutcome(t.response))
      && svc.Snapshot() == After(old(svc.Snapshot()), t.calls, env.connect)
      && c.errors == map[]
      && (Completed(t.calls) ==> c.form == EmptyForm)
      && (!Completed(t.calls) ==> c.form == old(c.form))
      && c.requests == old(c.requests) + [old(c.form)]
      && c.pendingCloses == old(c.pendingCloses) + (if Completed(t.calls) && c.floating then 1 else 0)
  {
    var request := c.HandleSubmit();
    if request.None? {
      assert !Submittable(old(c.form)) && c.form == old(c.form);
      return;
    }
    assert Submittable(old(c.form));
    Deliver(c, svc, env, request.value);
  }
}
