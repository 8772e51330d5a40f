/**
 * The server side of an enquiry, shared by the app-router handler and the
 * older pages-router copy: the request payload, the stored document, the
 * notification mail, the collaborators as results handed in from outside,
 * and the pipeline token -> verification -> fields -> save -> mail -> 200.
 */
module Intake {
  import opened Wrappers
  import opened Text
  import Uri
  import MongoCache

  /** The destructured JSON body: each property a string, or absent. */
  datatype Submission = Submission(name: Option<string>, email: Option<string>, phone: Option<string>,
                                   service: Option<string>, message: Option<string>, recaptchaToken: Option<string>)

  /** The request body as the handler gets it: an object, or a failure to obtain one
      (`request.json()` rejecting, or a missing `req.body` that cannot be destructured). */
  datatype RequestBody = Malformed(error: string) | Parsed(fields: Submission)

  /** JavaScript truthiness of an optional string. */
  predicate Truthy(v: Option<string>) {
    v.Some? && v.value != ""
  }

  /** How a template literal or `encodeURIComponent` renders an optional string. */
  function Render(v: Option<string>): string {
    if v.Some? then v.value else "undefined"
  }

  /** The `Enquiry` document: the five strings and `createdAt`; there is no token field. */
  datatype EnquiryRecord = EnquiryRecord(name: string, email: string, phone: string, service: string,
                                         message: string, createdAt: int)

  /** The notification: sender, recipient, subject and the five values its HTML body shows. */
  datatype Mail = Mail(from: string, to: Option<string>, subject: string,
                       name: string, email: string, phone: string, service: string, message: string)

  /** A value from an awaited call, or the message of the error it threw. */
  datatype Outcome<+T> = Returned(value: T) | Threw(message: string)

  /** Configuration, the clock and the collaborators, each reduced to the result it gives. */
  datatype Env = Env(
    secret: Option<string>,                           // RECAPTCHA_SECRET_KEY
    emailUser: Option<string>,                        // EMAIL_USER
    notifyTo: Option<string>,                         // NOTIFY_EMAIL_TO
    now: int,                                         // Date.now() when the document is built
    verifier: string -> Outcome<bool>,                // siteverify: posted body -> `success` of its JSON, or a throw
    connect: Option<MongoCache.Connection>,           // what `mongoose.connect` would settle to if started now
    store: (Option<MongoCache.Connection>, EnquiryRecord) -> Outcome<()>,  // `save()` given the cached connection
    mailer: Mail -> Outcome<()>)                      // `transporter.sendMail`

  /** The two copies of the handler: `app/api/enquiry/route.js` and `app/api/enquiry/enquiry.js`. */
  datatype Variant = AppRouter | PagesRouter

  /** One collaborator call, with whether it succeeded where the pipeline depends on it. */
  datatype Call =
    | VerifyCall(body: string)
    | ConnectCall
    | SaveCall(record: EnquiryRecord, saved: bool)
    | MailCall(mail: Mail, sent: bool)

  /** The `message` of every JSON answer the handlers write; `MessageText` is its text. */
  datatype Message =
    | TokenMissing
    | VerificationFailed
    | FieldsRequired
    | InternalError
    | Accepted(variant: Variant)
    | MethodNotAllowed(httpMethod: string)

  datatype ResponseBody = ResponseBody(success: bool, message: Message, error: Option<string>)
  datatype Response = Response(status: int, body: ResponseBody)

  /** What one request does: the response and the collaborator calls in the order made. */
  datatype Trace = Trace(response: Response, calls: seq<Call>)

  /** The message as it appears in the JSON body; the success text differs between the two copies. */
  function MessageText(m: Message): (text: string)
    ensures text != ""
  {
    match m
    case TokenMissing => "reCAPTCHA token missing"
    case VerificationFailed => "reCAPTCHA verification failed"
    case FieldsRequired => "All fields are required"
    case InternalError => "Internal Server Error"
    case Accepted(AppRouter) => "Enquiry submitted successfully and email sent!"
    case Accepted(PagesRouter) => "Enquiry submitted successfully and email notification sent!"
    case MethodNotAllowed(h) => "Method " + h + " Not Allowed"
  }

  function BadRequest(message: Message): Response {
    Response(400, ResponseBody(false, message, None))
  }

  function ServerError(error: string): Response {
    Response(500, ResponseBody(false, InternalError, Some(error)))
  }

  /** The form-urlencoded body posted to the verifier: `route.js` encodes both values,
      `enquiry.js` pastes them in as they are. */
  function VerifyBody(v: Variant, secret: Option<string>, token: string): string {
    match v
    case AppRouter => ("secret=" + Uri.EncodeURIComponent(Render(secret))) + "&" + ("response=" + Uri.EncodeURIComponent(token))
    case PagesRouter => ("secret=" + Render(secret)) + "&" + ("response=" + token)
  }

  /** `!name || !email || !phone || !service || !message` fails: every field present and non-empty. */
  predicate AllPresent(b: Submission) {
    Truthy(b.name) && Truthy(b.email) && Truthy(b.phone) && Truthy(b.service) && Truthy(b.message)
  }

  /** `new Enquiry({ name, email, phone, service, message })` */
  function RecordOf(b: Submission, now: int): EnquiryRecord
    requires AllPresent(b)
  {
    EnquiryRecord(b.name.value, b.email.value, b.phone.value, b.service.value, b.message.value, now)
  }

  /** The mail options: from the account, to NOTIFY_EMAIL_TO or else EMAIL_USER. */
  function MailFor(env: Env, b: Submission): Mail
    requires AllPresent(b)
  {
    Mail("\"Relentron Enquiry\" <" + Render(env.emailUser) + ">",
         if Truthy(env.notifyTo) then env.notifyTo else env.emailUser,
         "New Enquiry from " + b.name.value,
         b.name.value, b.email.value, b.phone.value, b.service.value, b.message.value)
  }

  /** Position of each kind of call in the pipeline. */
  function Stage(c: Call): nat {
    match c
    case VerifyCall(_) => 0
    case ConnectCall => 1
    case SaveCall(_, _) => 2
    case MailCall(_, _) => 3
  }

  /** Calls happen in pipeline order, each at most once: verify, connect, save, mail. */
  predicate Ordered(calls: seq<Call>) {
    forall i :: 0 <= i < |calls| ==> Stage(calls[i]) == i
  }

  /** Every step ran and the save and the mail both succeeded. */
  predicate Completed(calls: seq<Call>) {
    |calls| == 4 && calls[2].SaveCall? && calls[2].saved && calls[3].MailCall? && calls[3].sent
  }

  /** The records a run added to the collection. */
  function Stored(calls: seq<Call>): seq<EnquiryRecord> {
    if calls == [] then []
    else (if calls[0].SaveCall? && calls[0].saved then [calls[0].record] else []) + Stored(calls[1..])
  }

  /** The mails a run got the transport to accept. */
  function Mailed(calls: seq<Call>): seq<Mail> {
    if calls == [] then []
    else (if calls[0].MailCall? && calls[0].sent then [calls[0].mail] else []) + Mailed(calls[1..])
  }

  /** The handler body inside its `try`, with `conn` the value `connectToDatabase()` would return:
      the response and the collaborator calls, stopping at the first check that fails or the first
      call that throws. */
  function Run(v: Variant, req: RequestBody, env: Env, conn: Option<MongoCache.Connection>): (t: Trace)
    ensures t.calls == [] <==> req.Malformed? || !Truthy(req.fields.recaptchaToken)
    ensures t.calls != [] ==> t.calls[0].VerifyCall? && 1 <= |t.calls| <= 4
  {
    match req
    case Malformed(e) => Trace(ServerError(e), [])
    case Parsed(b) =>
      if !Truthy(b.recaptchaToken) then Trace(BadRequest(TokenMissing), [])
      else Checked(v, b, env, conn)
  }

  /** From the verification on, once a token is present. */
  function Checked(v: Variant, b: Submission, env: Env, conn: Option<MongoCache.Connection>): Trace
    requires Truthy(b.recaptchaToken)
  {
    var body := VerifyBody(v, env.secret, b.recaptchaToken.value);
    match env.verifier(body)
    case Threw(e) => Trace(ServerError(e), [VerifyCall(body)])
    case Returned(success) =>
      if !success then Trace(BadRequest(VerificationFailed), [VerifyCall(body)])
      else Screened(v, b, env, conn, body)
  }

  /** From the field check on, once the verifier has accepted the token posted as `body`. */
  function Screened(v: Variant, b: Submission, env: Env, conn: Option<MongoCache.Connection>, body: string): Trace {
    if !AllPresent(b) then Trace(BadRequest(FieldsRequired), [VerifyCall(body)])
    else Persisted(v, b, env, conn, body)
  }

  /** Connect, save, mail and answer, once every check has passed. */
  function Persisted(v: Variant, b: Submission, env: Env, conn: Option<MongoCache.Connection>, body: string): Trace
    requires AllPresent(b)
  {
    var record := RecordOf(b, env.now);
    match env.store(conn, record)
    case Threw(e) => Trace(ServerError(e), [VerifyCall(body), ConnectCall, SaveCall(record, false)])
    case Returned(_) => Notified(v, b, env, body)
  }

  /** The mail and the answer, once the record is saved. */
  function Notified(v: Variant, b: Submission, env: Env, body: string): Trace
    requires AllPresent(b)
  {
    var record, mail := RecordOf(b, env.now), MailFor(env, b);
    match env.mailer(mail)
    case Threw(e) =>
      Trace(ServerError(e), [VerifyCall(body), ConnectCall, SaveCall(record, true), MailCall(mail, false)])
    case Returned(_) =>
      Trace(Response(200, ResponseBody(true, Accepted(v), None)),
            [VerifyCall(body), ConnectCall, SaveCall(record, true), MailCall(mail, true)])
  }

  // ---------------------------------------------------------------- properties of the pipeline

  /** What every run of the handler guarantees: calls in pipeline order, each status with its meaning,
      a save only after an accepted verification of the request's own token and a full set of fields,
      holding exactly the submitted values, and a mail only after a successful save. */
  predicate Guarantees(v: Variant, req: RequestBody, env: Env, conn: Option<MongoCache.Connection>, t: Trace) {
    && Ordered(t.calls)
    && (t.response.status == 200 || t.response.status == 400 || t.response.status == 500)
    && (t.response.body.success <==> t.response.status == 200)
    && (t.response.status == 200 <==> Completed(t.calls))
    && (t.response.status == 500 <==> t.response.body.error.Some?)
    && |t.calls| <= 4 && |t.calls| != 2
    && (|t.calls| >= 1 ==>
          && req.Parsed? && Truthy(req.fields.recaptchaToken)
          && t.calls[0] == VerifyCall(VerifyBody(v, env.secret, req.fields.recaptchaToken.value)))
    && (|t.calls| >= 3 ==>
          && AllPresent(req.fields) && env.verifier(t.calls[0].body) == Returned(true)
          && t.calls[2] == SaveCall(RecordOf(req.fields, env.now), env.store(conn, RecordOf(req.fields, env.now)).Returned?))
    && (|t.calls| == 4 ==> t.calls[2].saved && t.calls[3].mail == MailFor(env, req.fields))
  }

  /** The three non-empty shapes of trace are in pipeline order. */
  lemma OrderedTraces(body: string, record: EnquiryRecord, saved: bool, mail: Mail, sent: bool)
    ensures Ordered([VerifyCall(body)])
    ensures Ordered([VerifyCall(body), ConnectCall, SaveCall(record, saved)])
    ensures Ordered([VerifyCall(body), ConnectCall, SaveCall(record, saved), MailCall(mail, sent)])
  {
    var three := [VerifyCall(body), ConnectCall, SaveCall(record, saved)];
    var four := three + [MailCall(mail, sent)];
    forall i | 0 <= i < |four|
      ensures Stage(four[i]) == i
    {
      if i == 0 {} else if i == 1 {} else if i == 2 {} else {}
    }
    assert [VerifyCall(body), ConnectCall, SaveCall(record, saved), MailCall(mail, sent)] == four;
    assert forall i | 0 <= i < |three| :: three[i] == four[i];
  }

  /** The persisting stage keeps the guarantees. */
  lemma PersistedGuarantees(v: Variant, b: Submission, env: Env, conn: Option<MongoCache.Connection>)
    requires Truthy(b.recaptchaToken) && AllPresent(b)
    requires env.verifier(VerifyBody(v, env.secret, b.recaptchaToken.value)) == Returned(true)
    ensures Guarantees(v, Parsed(b), env, conn, Persisted(v, b, env, conn, VerifyBody(v, env.secret, b.recaptchaToken.value)))
  {
    var body := VerifyBody(v, env.secret, b.recaptchaToken.value);
    var record, mail := RecordOf(b, env.now), MailFor(env, b);
    var t := Persisted(v, b, env, conn, body);
    OrderedTraces(body, record, env.store(conn, record).Returned?, mail, env.mailer(mail).Returned?);
    if env.store(conn, record).Threw? {
      assert t.calls == [VerifyCall(body), ConnectCall, SaveCall(record, false)];
    } else if env.mailer(mail).Threw? {
      assert t.calls == [VerifyCall(body), ConnectCall, SaveCall(record, true), MailCall(mail, false)];
    } else {
      assert t.calls == [VerifyCall(body), ConnectCall, SaveCall(record, true), MailCall(mail, true)];
    }
  }

  /** The field check keeps the guarantees, once the verifier has accepted the token. */
  lemma ScreenedGuarantees(v: Variant, b: Submission, env: Env, conn: Option<MongoCache.Connection>)
    requires Truthy(b.recaptchaToken)
    requires env.verifier(VerifyBody(v, env.secret, b.recaptchaToken.value)) == Returned(true)
    ensures var body := VerifyBody(v, env.secret, b.recaptchaToken.value);
      Guarantees(v, Parsed(b), env, conn, Screened(v, b, env, conn, body))
  {
    var body := VerifyBody(v, env.secret, b.recaptchaToken.value);
    if AllPresent(b) {
      PersistedGuarantees(v, b, env, conn);
    } else {
      assert Screened(v, b, env, conn, body).calls == [VerifyCall(body)];
      assert Ordered([VerifyCall(body)]);
    }
  }

  /** Verification keeps the guarantees, once a token is present. */
  lemma CheckedGuarantees(v: Variant, b: Submission, env: Env, conn: Option<MongoCache.Connection>)
    requires Truthy(b.recaptchaToken)
    ensures Guarantees(v, Parsed(b), env, conn, Checked(v, b, env, conn))
  {
    var body := VerifyBody(v, env.secret, b.recaptchaToken.value);
    if env.verifier(body) == Returned(true) {
      ScreenedGuarantees(v, b, env, conn);
      assert Checked(v, b, env, conn) == Screened(v, b, env, conn, body);
    } else {
      assert Checked(v, b, env, conn).calls == [VerifyCall(body)];
      assert Ordered([VerifyCall(body)]);
    }
  }

  /** Every run keeps the guarantees. */
  lemma RunShape(v: Variant, req: RequestBody, env: Env, conn: Option<MongoCache.Connection>)
    ensures Guarantees(v, req, env, conn, Run(v, req, env, conn))
  {
    if req.Parsed? && Truthy(req.fields.recaptchaToken) {
      CheckedGuarantees(v, req.fields, env, conn);
    }
  }

  /** No token: 400 before any collaborator is called. */
  lemma MissingTokenRejected(v: Variant, b: Submission, env: Env, conn: Option<MongoCache.Connection>)
    requires !Truthy(b.recaptchaToken)
    ensures Run(v, Parsed(b), env, conn) == Trace(BadRequest(TokenMissing), [])
  {
  }

  /** A verifier answer without `success`: 400 after the verification call alone, nothing saved or mailed. */
  lemma FailedVerificationRejected(v: Variant, b: Submission, env: Env, conn: Option<MongoCache.Connection>)
    requires Truthy(b.recaptchaToken)
    requires env.verifier(VerifyBody(v, env.secret, b.recaptchaToken.value)) == Returned(false)
    ensures var t := Run(v, Parsed(b), env, conn);
      t.response == BadRequest(VerificationFailed) && t.calls == [VerifyCall(VerifyBody(v, env.secret, b.recaptchaToken.value))]
      && Stored(t.calls) == [] && Mailed(t.calls) == []
  {
  }

  /** The field check comes only after a successful verification: a missing or empty field is a 400
      with the verifier called and nothing saved. */
  lemma MissingFieldsRejected(v: Variant, b: Submission, env: Env, conn: Option<MongoCache.Connection>)
    requires Truthy(b.recaptchaToken) && !AllPresent(b)
    requires env.verifier(VerifyBody(v, env.secret, b.recaptchaToken.value)) == Returned(true)
    ensures var t := Run(v, Parsed(b), env, conn);
      t.response == BadRequest(FieldsRequired) && |t.calls| == 1 && Stored(t.calls) == []
  {
  }

  /** The field check tests presence only: whitespace-only values reach the store unchanged. */
  lemma {:induction false} BlankFieldsStored(v: Variant, b: Submission, env: Env, conn: Option<MongoCache.Connection>)
    requires Truthy(b.recaptchaToken)
    requires b.name.Some? && b.name.value != "" && AllSpace(b.name.value)
    requires Truthy(b.email) && Truthy(b.phone) && Truthy(b.service) && Truthy(b.message)
    requires env.verifier(VerifyBody(v, env.secret, b.recaptchaToken.value)) == Returned(true)
    requires env.store(conn, RecordOf(b, env.now)).Returned?
    ensures var t := Run(v, Parsed(b), env, conn);
      Stored(t.calls) == [RecordOf(b, env.now)] && AllSpace(Stored(t.calls)[0].name)
  {
    var t := Run(v, Parsed(b), env, conn);
    RunShape(v, Parsed(b), env, conn);
    StoredPrefix(t.calls);
  }

  /** A failed save: 500 with the driver's message, and no mail is attempted. */
  lemma FailedSaveNoMail(v: Variant, b: Submission, env: Env, conn: Option<MongoCache.Connection>, e: string)
    requires Truthy(b.recaptchaToken) && AllPresent(b)
    requires env.verifier(VerifyBody(v, env.secret, b.recaptchaToken.value)) == Returned(true)
    requires env.store(conn, RecordOf(b, env.now)) == Threw(e)
    ensures var t := Run(v, Parsed(b), env, conn);
      t.response == ServerError(e) && |t.calls| == 3 && Stored(t.calls) == [] && Mailed(t.calls) == []
  {
    var t := Run(v, Parsed(b), env, conn);
    RunShape(v, Parsed(b), env, conn);
    StoredPrefix(t.calls);
    MailedPrefix(t.calls);
  }

  /** A failed mail is not swallowed: the answer is 500 although the record is already stored. */
  lemma FailedMailAfterSave(v: Variant, b: Submission, env: Env, conn: Option<MongoCache.Connection>, e: string)
    requires Truthy(b.recaptchaToken) && AllPresent(b)
    requires env.verifier(VerifyBody(v, env.secret, b.recaptchaToken.value)) == Returned(true)
    requires env.store(conn, RecordOf(b, env.now)).Returned?
    requires env.mailer(MailFor(env, b)) == Threw(e)
    ensures var t := Run(v, Parsed(b), env, conn);
      t.response == ServerError(e) && Stored(t.calls) == [RecordOf(b, env.now)] && Mailed(t.calls) == []
  {
    var t := Run(v, Parsed(b), env, conn);
    RunShape(v, Parsed(b), env, conn);
    StoredPrefix(t.calls);
    MailedPrefix(t.calls);
  }

  /** The stored document holds exactly the submitted strings and the clock reading, and the mail
      goes to the configured address with the submitter's name in the subject. */
  lemma {:induction false} StoredAndMailed(v: Variant, req: RequestBody, env: Env, conn: Option<MongoCache.Connection>)
    ensures var t := Run(v, req, env, conn);
      && (Stored(t.calls) == [] || (req.Parsed? && AllPresent(req.fields) && Stored(t.calls) == [RecordOf(req.fields, env.now)]))
      && (Mailed(t.calls) == [] ||
          (req.Parsed? && AllPresent(req.fields) && Stored(t.calls) != [] && |Mailed(t.calls)| == 1
           && Mailed(t.calls)[0].subject == "New Enquiry from " + req.fields.name.value
           && Mailed(t.calls)[0].to == (if Truthy(env.notifyTo) then env.notifyTo else env.emailUser)))
  {
    var t := Run(v, req, env, conn);
    RunShape(v, req, env, conn);
    StoredPrefix(t.calls);
    MailedPrefix(t.calls);
  }

  /** In an ordered run the stored records come from the save call alone. */
  lemma StoredPrefix(calls: seq<Call>)
    requires Ordered(calls) && |calls| <= 4
    ensures Stored(calls) == if |calls| >= 3 && calls[2].saved then [calls[2].record] else []
  {
    if |calls| > 0 {
      assert Stored(calls) == Stored(calls[1..]);
      if |calls| > 1 {
        assert calls[1..][0].ConnectCall?;
        assert Stored(calls[1..]) == Stored(calls[2..]) by { assert calls[1..][1..] == calls[2..]; }
        if |calls| > 2 {
          assert calls[2..][0] == calls[2];
          assert Stored(calls[2..]) == (if calls[2].saved then [calls[2].record] else []) + Stored(calls[3..])
            by { assert calls[2..][1..] == calls[3..]; }
          if |calls| > 3 {
            assert calls[3..][0].MailCall?;
            assert Stored(calls[3..]) == Stored(calls[4..]) by { assert calls[3..][1..] == calls[4..]; }
          }
        }
      }
    }
  }

  /** In an ordered run the mailed messages come from the mail call alone. */
  lemma MailedPrefix(calls: seq<Call>)
    requires Ordered(calls) && |calls| <= 4
    ensures Mailed(calls) == if |calls| == 4 && calls[3].sent then [calls[3].mail] else []
  {
    if |calls| > 0 {
      assert Mailed(calls) == Mailed(calls[1..]);
      if |calls| > 1 {
        assert calls[1..][0].ConnectCall?;
        assert Mailed(calls[1..]) == Mailed(calls[2..]) by { assert calls[1..][1..] == calls[2..]; }
        if |calls| > 2 {
          assert calls[2..][0].SaveCall?;
          assert Mailed(calls[2..]) == Mailed(calls[3..]) by { assert calls[2..][1..] == calls[3..]; }
          if |calls| > 3 {
            assert calls[3..][0] == calls[3];
            assert Mailed(calls[3..]) == (if calls[3].sent then [calls[3].mail] else []) + Mailed(calls[4..])
              by { assert calls[3..][1..] == calls[4..]; }
          }
        }
      }
    }
  }

  /** The app router's verification body always carries exactly the two fields `secret` and `response`,
      with values free of `&` and `=`. */
  lemma {:induction false} AppRouterBodyHasTwoFields(secret: Option<string>, token: string)
    ensures Split(VerifyBody(AppRouter, secret, token), '&') ==
      ["secret=" + Uri.EncodeURIComponent(Render(secret)), "response=" + Uri.EncodeURIComponent(token)]
    ensures '=' !in Uri.EncodeURIComponent(Render(secret)) && '=' !in Uri.EncodeURIComponent(token)
  {
    var a, b := Uri.EncodeURIComponent(Render(secret)), Uri.EncodeURIComponent(token);
    Uri.NotEmitted(a, '&');
    Uri.NotEmitted(a, '=');
    Uri.NotEmitted(b, '&');
    Uri.NotEmitted(b, '=');
    assert '&' !in "secret=" + a;
    assert '&' !in "response=" + b;
    SplitTwo("secret=" + a, "response=" + b, '&');
  }

  /** Two pieces free of the separator, joined by it, split back into the two. */
  lemma SplitTwo(first: string, second: string, sep: char)
    requires sep !in first && sep !in second
    ensures Split(first + [sep] + second, sep) == [first, second]
  {
    SplitCons(first, sep, second);
  }

  /** The pages router's body does not: a token `x&response=y` smuggles in a second `response`
      field, so the verifier sees three fields. */
  lemma {:induction false} PagesRouterBodyCanGainFields(secret: string, x: string, y: string)
    requires '&' !in secret && '&' !in x && '&' !in y
    ensures Split(VerifyBody(PagesRouter, Some(secret), x + "&response=" + y), '&') ==
      ["secret=" + secret, "response=" + x, "response=" + y]
  {
    var first, second, third := "secret=" + secret, "response=" + x, "response=" + y;
    assert '&' !in first && '&' !in second;
    assert VerifyBody(PagesRouter, Some(secret), x + "&response=" + y) == first + "&" + (second + "&" + third);
    SplitCons(first, '&', second + "&" + third);
    SplitCons(second, '&', third);
  }

  /** For a secret and a token made of unreserved characters (as reCAPTCHA tokens are) both copies
      post the same body. */
  lemma PlainValuesSameBody(secret: string, token: string)
    requires Uri.AllUnreserved(secret) && Uri.AllUnreserved(token)
    ensures VerifyBody(AppRouter, Some(secret), token) == VerifyBody(PagesRouter, Some(secret), token)
  {
  }

  // ---------------------------------------------------------------- the collaborators

  /** The state the handlers act on: the process-wide connection cache, the `enquiries` collection,
      the mails the transport accepted, and a log of collaborator calls. */
  class Services {
    const cache: MongoCache.ConnectionCache
    var records: seq<EnquiryRecord>
    var outbox: seq<Mail>
    ghost var log: seq<Call>

    ghost predicate Valid()
      reads this, cache
    {
      cache.Valid()
    }

    ghost function Snapshot(): World
      reads this, cache
    {
      World(log, records, outbox, cache.State(), cache.connects)
    }

    constructor (cache: MongoCache.ConnectionCache)
      requires cache.Valid()
      ensures Valid() && this.cache == cache && records == [] && outbox == [] && log == []
    {
      this.cache := cache;
      records := [];
      outbox := [];
      log := [];
    }

    /** `fetch` of siteverify and `verifyResponse.json()`. */
    method Verify(env: Env, body: string) returns (reply: Outcome<bool>)
      modifies this`log
      ensures reply == env.verifier(body) && log == old(log) + [VerifyCall(body)]
    {
      reply := env.verifier(body);
      log := log + [VerifyCall(body)];
    }

    /** `await connectToDatabase()` through the process-wide cache. */
    method Connect(env: Env) returns (conn: Option<MongoCache.Connection>)
      requires Valid()
      modifies this`log, cache
      ensures Valid()
      ensures var c := MongoCache.Step(old(cache.State()), env.connect);
        conn == c.result && cache.State() == c.next
        && cache.connects == old(cache.connects) + (if c.connected then 1 else 0)
      ensures log == old(log) + [ConnectCall]
    {
      conn := cache.ConnectToDatabase(env.connect);
      log := log + [ConnectCall];
    }

    /** `await newEnquiry.save()`: the record is added only when the save returns. */
    method Save(env: Env, conn: Option<MongoCache.Connection>, record: EnquiryRecord) returns (result: Outcome<()>)
      modifies this`log, this`records
      ensures result == env.store(conn, record)
      ensures log == old(log) + [SaveCall(record, result.Returned?)]
      ensures records == old(records) + (if result.Returned? then [record] else [])
    {
      result := env.store(conn, record);
      log := log + [SaveCall(record, result.Returned?)];
      if result.Returned? {
        records := records + [record];
      }
    }

    /** `await transporter.sendMail(mailOptions)` */
    method SendMail(env: Env, mail: Mail) returns (result: Outcome<()>)
      modifies this`log, this`outbox
      ensures result == env.mailer(mail)
      ensures log == old(log) + [MailCall(mail, result.Returned?)]
      ensures outbox == old(outbox) + (if result.Returned? then [mail] else [])
    {
      result := env.mailer(mail);
      log := log + [MailCall(mail, result.Returned?)];
      if result.Returned? {
        outbox := outbox + [mail];
      }
    }
  }

  /** The state of the collaborators as the handlers see it. */
  datatype World = World(log: seq<Call>, records: seq<EnquiryRecord>, outbox: seq<Mail>,
                         cache: MongoCache.CacheState, connects: nat)

  /** The collaborators after `calls`: each call logged, saved records and accepted mails appended,
      and the cache advanced by one `connectToDatabase()` if the run got that far, with `attempt`
      what a connect started then would settle to. */
  function After(w: World, calls: seq<Call>, attempt: Option<MongoCache.Connection>): World {
    var c := MongoCache.Step(w.cache, attempt);
    var reached := ConnectCall in calls;
    World(w.log + calls, w.records + Stored(calls), w.outbox + Mailed(calls),
          if reached then c.next else w.cache,
          w.connects + (if reached && c.connected then 1 else 0))
  }

  /** A run without calls leaves the collaborators as they are. */
  lemma AfterNothing(w: World, attempt: Option<MongoCache.Connection>)
    ensures After(w, [], attempt) == w
  {
    assert w.log + [] == w.log;
  }

  /** Logging the verification first and the rest afterwards is logging them all at once. */
  lemma AfterVerified(w: World, body: string, rest: seq<Call>, attempt: Option<MongoCache.Connection>)
    ensures After(w.(log := w.log + [VerifyCall(body)]), rest, attempt) == After(w, [VerifyCall(body)] + rest, attempt)
  {
    var calls := [VerifyCall(body)] + rest;
    assert calls[1..] == rest;
    assert w.log + [VerifyCall(body)] + rest == w.log + calls;
    assert ConnectCall in calls <==> ConnectCall in rest;
  }

  /** A run that stops after the verification only logs that call. */
  lemma AfterVerifyOnly(w: World, body: string, attempt: Option<MongoCache.Connection>)
    ensures After(w, [VerifyCall(body)], attempt) == w.(log := w.log + [VerifyCall(body)])
  {
    assert [VerifyCall(body)][1..] == [];
    assert Stored([VerifyCall(body)]) == [] && Mailed([VerifyCall(body)]) == [];
    assert w.records + [] == w.records && w.outbox + [] == w.outbox;
  }

  /** What the connect, save and mail calls add to the collection and the outbox. */
  lemma PersistFilters(record: EnquiryRecord, saved: bool, mail: Mail, sent: bool)
    ensures Stored([ConnectCall, SaveCall(record, saved)]) == (if saved then [record] else [])
    ensures Mailed([ConnectCall, SaveCall(record, saved)]) == []
    ensures Stored([ConnectCall, SaveCall(record, saved), MailCall(mail, sent)]) == (if saved then [record] else [])
    ensures Mailed([ConnectCall, SaveCall(record, saved), MailCall(mail, sent)]) == (if sent then [mail] else [])
  {
    var mailOnly := [MailCall(mail, sent)];
    var saveOnly := [SaveCall(record, saved)];
    var saveMail := [SaveCall(record, saved), MailCall(mail, sent)];
    assert mailOnly[1..] == [] && saveOnly[1..] == [];
    assert Stored(mailOnly) == [];
    assert Mailed(mailOnly) == (if sent then [mail] else []);
    assert Stored(saveOnly) == (if saved then [record] else []);
    assert Mailed(saveOnly) == [];
    assert saveMail[1..] == mailOnly;
    assert Stored(saveMail) == (if saved then [record] else []) + Stored(mailOnly);
    assert Mailed(saveMail) == Mailed(mailOnly);
    assert [ConnectCall, SaveCall(record, saved)][1..] == saveOnly;
    assert [ConnectCall, SaveCall(record, saved), MailCall(mail, sent)][1..] == saveMail;
  }

  /** The handler body inside its `try`, carried out against the collaborators: the response and the
      new state of the collaborators are those `Run` describes, with the connection the cache yields. */
  method Handle(v: Variant, svc: Services, req: RequestBody, env: Env) returns (response: Response)
    requires svc.Valid()
    modifies svc, svc.cache
    ensures svc.Valid()
    ensures var t := Run(v, req, env, MongoCache.Step(old(svc.cache.State()), env.connect).result);
      response == t.response && svc.Snapshot() == After(old(svc.Snapshot()), t.calls, env.connect)
  {
    AfterNothing(svc.Snapshot(), env.connect);
    if req.Malformed? {
      return ServerError(req.error);
    }
    var b := req.fields;
    if !Truthy(b.recaptchaToken) {
      return BadRequest(TokenMissing);
    }
    response := Check(v, svc, b, env);
  }

  /** Verification, the field check and persistence, once a token is present. */
  method Check(v: Variant, svc: Services, b: Submission, env: Env) returns (response: Response)
    requires svc.Valid() && Truthy(b.recaptchaToken)
    modifies svc, svc.cache
    ensures svc.Valid()
    ensures var t := Checked(v, b, env, MongoCache.Step(old(svc.cache.State()), env.connect).result);
      response == t.response && svc.Snapshot() == After(old(svc.Snapshot()), t.calls, env.connect)
  {
    ghost var w := svc.Snapshot();
    ghost var conn := MongoCache.Step(svc.cache.State(), env.connect).result;
    var body := VerifyBody(v, env.secret, b.recaptchaToken.value);
    var reply := svc.Verify(env, body);
    AfterVerifyOnly(w, body, env.connect);
    if reply.Threw? {
      assert Checked(v, b, env, conn) == Trace(ServerError(reply.message), [VerifyCall(body)]);
      return ServerError(reply.message);
    }
    if !reply.value {
      assert Checked(v, b, env, conn) == Trace(BadRequest(VerificationFailed), [VerifyCall(body)]);
      return BadRequest(VerificationFailed);
    }
    ghost var t := Screened(v, b, env, conn, body);
    assert Checked(v, b, env, conn) == t;
    response := Screen(v, svc, b, env, body);
    assert t.calls == [VerifyCall(body)] + t.calls[1..];
    AfterVerified(w, body, t.calls[1..], env.connect);
  }

  /** The field check and persistence, once the verifier has accepted the token; the verification
      call is already in the log. */
  method Screen(v: Variant, svc: Services, b: Submission, env: Env, ghost body: string) returns (response: Response)
    requires svc.Valid()
    modifies svc, svc.cache
    ensures svc.Valid()
    ensures var t := Screened(v, b, env, MongoCache.Step(old(svc.cache.State()), env.connect).result, body);
      |t.calls| >= 1 && t.calls[0] == VerifyCall(body)
      && response == t.response && svc.Snapshot() == After(old(svc.Snapshot()), t.calls[1..], env.connect)
  {
    if !AllPresent(b) {
      AfterNothing(svc.Snapshot(), env.connect);
      assert [VerifyCall(body)][1..] == [];
      return BadRequest(FieldsRequired);
    }
    response := Persist(v, svc, b, env, body);
  }

  /** `After` on the two call sequences persisting can produce, in closed form. */
  lemma AfterPersisting(w: World, record: EnquiryRecord, saved: bool, mail: Mail, sent: bool,
                        attempt: Option<MongoCache.Connection>)
    ensures var c := MongoCache.Step(w.cache, attempt);
      After(w, [ConnectCall, SaveCall(record, saved)], attempt) ==
        World(w.log + [ConnectCall] + [SaveCall(record, saved)], w.records + (if saved then [record] else []),
              w.outbox, c.next, w.connects + (if c.connected then 1 else 0))
    ensures var c := MongoCache.Step(w.cache, attempt);
      After(w, [ConnectCall, SaveCall(record, saved), MailCall(mail, sent)], attempt) ==
        World(w.log + [ConnectCall] + [SaveCall(record, saved)] + [MailCall(mail, sent)],
              w.records + (if saved then [record] else []),
              w.outbox + (if sent then [mail] else []), c.next, w.connects + (if c.connected then 1 else 0))
  {
    PersistFilters(record, saved, mail, sent);
    assert w.log + [ConnectCall] + [SaveCall(record, saved)] == w.log + [ConnectCall, SaveCall(record, saved)];
    assert w.log + [ConnectCall] + [SaveCall(record, saved)] + [MailCall(mail, sent)]
        == w.log + [ConnectCall, SaveCall(record, saved), MailCall(mail, sent)];
    assert ConnectCall in [ConnectCall, SaveCall(record, saved)];
    assert ConnectCall in [ConnectCall, SaveCall(record, saved), MailCall(mail, sent)];
  }

  /** The closed form of what persisting does to the collaborators: the connect and the save are
      logged, the mail only after a successful save; the record and the mail are kept when they went through. */
  lemma PersistEffect(w: World, v: Variant, b: Submission, env: Env, conn: Option<MongoCache.Connection>,
                      body: string, attempt: Option<MongoCache.Connection>)
    requires AllPresent(b)
    ensures var t := Persisted(v, b, env, conn, body);
      var record, mail := RecordOf(b, env.now), MailFor(env, b);
      var saved := env.store(conn, record).Returned?;
      var sent := env.mailer(mail).Returned?;
      var c := MongoCache.Step(w.cache, attempt);
      var log := w.log + [ConnectCall] + [SaveCall(record, saved)];
      && |t.calls| >= 1 && t.calls[0] == VerifyCall(body)
      && (!saved ==> t.response == ServerError(env.store(conn, record).message))
      && (saved ==> t.response == Notified(v, b, env, body).response)
      && After(w, t.calls[1..], attempt) ==
           World(if saved then log + [MailCall(mail, sent)] else log,
                 w.records + (if saved then [record] else []),
                 w.outbox + (if saved && sent then [mail] else []),
                 c.next, w.connects + (if c.connected then 1 else 0))
  {
    var t := Persisted(v, b, env, conn, body);
    var record, mail := RecordOf(b, env.now), MailFor(env, b);
    var saved := env.store(conn, record).Returned?;
    var sent := env.mailer(mail).Returned?;
    AfterPersisting(w, record, saved, mail, sent, attempt);
    if saved {
      assert t.calls[1..] == [ConnectCall, SaveCall(record, true), MailCall(mail, sent)];
    } else {
      assert t.calls[1..] == [ConnectCall, SaveCall(record, false)];
    }
  }

  /** Connect and save, after the token, the verification and the fields have passed. */
  method Persist(v: Variant, svc: Services, b: Submission, env: Env, ghost body: string) returns (response: Response)
    requires svc.Valid() && AllPresent(b)
    modifies svc, svc.cache
    ensures svc.Valid()
    ensures var t := Persisted(v, b, env, MongoCache.Step(old(svc.cache.State()), env.connect).result, body);
      |t.calls| >= 1 && t.calls[0] == VerifyCall(body)
      && response == t.response && svc.Snapshot() == After(old(svc.Snapshot()), t.calls[1..], env.connect)
  {
    ghost var w := svc.Snapshot();
    var conn := svc.Connect(env);
    PersistEffect(w, v, b, env, conn, body, env.connect);
    var record := RecordOf(b, env.now);
    var saved := svc.Save(env, conn, record);
    if saved.Threw? {
      return ServerError(saved.message);
    }
    response := Notify(v, svc, b, env, body);
  }

  /** Send the mail and answer, once the record is saved. */
  method Notify(v: Variant, svc: Services, b: Submission, env: Env, ghost body: string) returns (response: Response)
    requires AllPresent(b)
    modifies svc`log, svc`outbox
    ensures var mail := MailFor(env, b);
      && response == Notified(v, b, env, body).response
      && svc.log == old(svc.log) + [MailCall(mail, env.mailer(mail).Returned?)]
      && svc.outbox == old(svc.outbox) + (if env.mailer(mail).Returned? then [mail] else [])
  {
    var mail := MailFor(env, b);
    var sent := svc.SendMail(env, mail);
    if sent.Threw? {
      return ServerError(sent.message);
    }
    return Response(200, ResponseBody(true, Accepted(v), None));
  }
}
