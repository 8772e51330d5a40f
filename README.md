# Enquiry pipeline model

A Dafny model of the website's enquiry submission pipeline, with proofs about it:

- the enquiry form component (`EnquiryForm`), with its keystroke filter, reCAPTCHA callback, submit-time validator and submit handler;
- the two server handlers that receive the form: the app-router `POST` and the older pages-router `handler`;
- the process-wide MongoDB connection cache.

Modules follow the program:

- `Text`: JavaScript's `\s` class and `trim`, and a one-character `split`. Neither handler calls `split`: it stands for the verifier's parsing of the form-urlencoded body in the lemmas about that body.
- `Uri`: `encodeURIComponent`.
- `Form`: the component, a class holding `form`, `errors`, `status` and `isOpen`.
- `MongoCache`: `lib/mongodb.js`, a class with the two fields `conn` and `promise`.
- `Intake`: the pipeline both handlers share, together with a `Services` class holding the collaborators and a ghost call log.
- `AppRoute`: `route.js`.
- `PagesApi`: `enquiry.js`, which writes into a mutable `res` object.
- `EndToEnd`: the form and the app-router handler together.

The handler pipeline is the function `Intake.Run`. It returns the response and the sequence of collaborator calls made. The call kinds are:

- verify, with the exact form-urlencoded body posted;
- connect;
- save, with the record and whether it went through;
- mail, with the mail options and whether they went through.

The handler methods run the same steps against the `Services` object. Their postconditions tie the response and the new state (log, stored records, sent mails, connection cache) to `Run`. The lemmas about `Run` state what the code promises:

- the order of the calls;
- the early rejections;
- what is stored;
- when a mail goes out;
- what each status means.

On the client side, `fetch` and `res.json()` are modelled by `EndToEnd.ClientOutcome`: `res.ok` is a 2xx status, and `data.message` is the text of the handler's message.

The collaborators (the reCAPTCHA verifier, `mongoose.connect`, the document store and the mail transport) are inputs: an `Env` gives the result each would produce, a value or a thrown message. The clock (`createdAt`) and the environment variables are `Env` fields too.

Behaviour of the code worth noting:

- A mail that fails after a successful save is not swallowed. It reaches the catch block, so the answer is 500 while the record stays stored (`FailedMailAfterSave`, `StoredButReportedAsError`).
- A verifier call that throws, whether in `fetch` or in `json()`, also gives 500, not a verification failure.
- The server's field check is falsy-only and does not trim, so whitespace-only values are stored (`BlankFieldsStored`, `BlankNamePassesServerOnly`).
- The client does not block a second submission while one is in flight (`ResubmitWhileInFlight`).

## Model

| member | source | states |
|---|---|---|
| Form.Put | app/components/EnquiryForm.jsx:57 | the spread update sets the named field to the value and leaves every other field and the token as they were |
| Form.EnquiryForm.constructor | app/components/EnquiryForm.jsx:10-21 | the initial state: closed, all six fields empty, no errors, empty status, no close timer pending |
| Form.EnquiryForm.Open | app/components/EnquiryForm.jsx:264 | the "Enquire Now" button opens the popup |
| Form.EnquiryForm.Close | app/components/EnquiryForm.jsx:293 | the close button closes the popup |
| Form.EnquiryForm.HandleChange | app/components/EnquiryForm.jsx:45-58 | a name with a character outside letters and whitespace, or a phone that is not at most ten digits, leaves the form unchanged; an accepted value replaces only its own field; the name/phone invariant is kept |
| Form.EnquiryForm.HandleRecaptchaChange | app/components/EnquiryForm.jsx:60-62 | only the token changes, and the invariant is kept |
| Form.EnquiryForm.ValidateForm | app/components/EnquiryForm.jsx:65-86 | the stored error map is the one the six rules give, and the result is true exactly when the form satisfies the submission rules independently stated in `Submittable` |
| Form.ValidIffRules | app/components/EnquiryForm.jsx:65-85 | the error map is empty if and only if: the name is not blank and has at least two characters, the e-mail matches the pattern, the phone is ten digits, the service is set, the message is not blank and the token is set |
| Form.ErrorsAt | app/components/EnquiryForm.jsx:68-82 | each key holds at most one message, and holds one exactly when its own check fails |
| Form.RequiredTakesPrecedence | app/components/EnquiryForm.jsx:68-80 | a blank field always gets its "required" message; a non-blank field can only get its format message, and the service and the message have none |
| Form.EmailPatternShape | app/components/EnquiryForm.jsx:72 | the e-mail pattern accepts exactly the strings with one `@` that is not first, no whitespace, and a `.` in the domain part that is neither its first nor its last character |
| Text.TrimEmptyIff | app/components/EnquiryForm.jsx:68 | a value trims to "" exactly when every character of it is JavaScript whitespace |
| Form.EnquiryForm.HandleSubmit | app/components/EnquiryForm.jsx:88-104 | a form that fails validation is not sent: status is the "fix the highlighted errors" text and the form is unchanged; a valid form is posted as it stands with status "Submitting..." and an empty error map |
| Form.SubmittableHasNoErrors | app/components/EnquiryForm.jsx:65-86 | a form meeting the submission rules gets an empty error map |
| Form.ResponseStatus | app/components/EnquiryForm.jsx:106-126 | an ok response gives the success text; a failed one the server's non-empty message, or the "Something went wrong" fallback when the message is missing or empty; an exception the network-error text; the status is never blank |
| Form.EnquiryForm.CompleteSubmit | app/components/EnquiryForm.jsx:106-126 | on an ok response all six fields reset to "" and the errors clear, and exactly one close is scheduled when floating (none otherwise); on any other outcome the form, the errors and the timers are kept and only the status changes |
| Form.EnquiryForm.FireCloseTimer | app/components/EnquiryForm.jsx:119 | the scheduled close closes the popup and consumes one pending timer |
| Form.ResubmitWhileInFlight | app/components/EnquiryForm.jsx:88-104 | a valid popup whose `handleSubmit` is called twice before any response posts the same body twice |
| Uri.EncodeURIComponent | app/api/enquiry/route.js:25-27 | the result has only unreserved characters and `%` escapes, and a string of unreserved characters encodes to itself |
| Uri.Escape | app/api/enquiry/route.js:25-27 | each UTF-8 byte becomes `%` followed by its two upper-case hexadecimal digits |
| Intake.MessageText | app/api/enquiry/route.js:12-95 | every message the handlers write is a non-empty string, so the form shows it instead of its fallback |
| Intake.Run | app/api/enquiry/route.js:7-95 | the handler body as one trace: no collaborator is called unless the request parsed and carries a truthy token; once it does, the first call is the verification and a run makes at most four calls (verify, connect, save, mail) |
| Intake.RunShape | app/api/enquiry/route.js:6-96 | every run makes its calls in order: verify, connect, save, mail. Status is 200, 400 or 500. `success` is true exactly for 200, 200 means the save and the mail both succeeded, and only a 500 carries `error`. A save happens only after the verifier accepted the request's own token and all five fields were present; it holds exactly the submitted values; a mail follows only a successful save |
| Intake.MissingTokenRejected | app/api/enquiry/route.js:12-17 | a falsy token gives 400 "reCAPTCHA token missing" with no collaborator call |
| Intake.FailedVerificationRejected | app/api/enquiry/route.js:33-39 | a verifier answer without `success` gives 400 "reCAPTCHA verification failed" after the single verify call; nothing is stored or mailed |
| Intake.MissingFieldsRejected | app/api/enquiry/route.js:41-47 | after a successful verification a falsy field gives 400 "All fields are required", and nothing is stored |
| Intake.BlankFieldsStored | app/api/enquiry/route.js:42-52 | whitespace-only values pass the field check and are stored unchanged |
| Intake.FailedSaveNoMail | app/api/enquiry/route.js:50-95 | a save that throws gives 500 with the driver's message, and no mail is attempted |
| Intake.FailedMailAfterSave | app/api/enquiry/route.js:77-95 | a mail that throws gives 500 although the record is already stored |
| Intake.StoredAndMailed | app/api/enquiry/route.js:51-77 | a run stores at most the record of the submitted five values and the clock reading. A mail is sent only after that record is stored; its subject is "New Enquiry from " and the name, and it goes to NOTIFY_EMAIL_TO or else EMAIL_USER |
| Intake.AppRouterBodyHasTwoFields | app/api/enquiry/route.js:25-27 | the encoded verification body splits on `&` into exactly the `secret` and `response` fields, and neither value contains `=` |
| Intake.PagesRouterBodyCanGainFields | app/api/enquiry/enquiry.js:29 | the unencoded body can be split into three fields by a token containing `&response=` |
| Intake.PlainValuesSameBody | app/api/enquiry/enquiry.js:29 | for a secret and a token of unreserved characters both handlers post the same body |
| Intake.Services.Verify | app/api/enquiry/route.js:20-31 | the verifier's answer to the body posted, and one verify call logged |
| Intake.Services.Connect | app/api/enquiry/route.js:50 | `connectToDatabase()` through the shared cache, and one connect call logged |
| Intake.Services.Save | app/api/enquiry/route.js:51-52 | the store's answer; the record is added exactly when the save returns |
| Intake.Services.SendMail | app/api/enquiry/route.js:77 | the transport's answer; the mail is kept exactly when it is accepted |
| Intake.Handle | app/api/enquiry/route.js:7-95 | the response and the new state of log, records, outbox and cache are those `Run` describes |
| Intake.Check | app/api/enquiry/route.js:19-39 | the same, from the verification on |
| Intake.Screen | app/api/enquiry/route.js:41-47 | the same, from the field check on |
| Intake.Persist | app/api/enquiry/route.js:49-95 | the same, from the connect on |
| Intake.Notify | app/api/enquiry/route.js:54-84 | the mail is logged, kept when accepted, and the answer is 200 with the success text or 500 |
| AppRoute.Post | app/api/enquiry/route.js:6-96 | the app-router handler answers as `Run` with the encoded body and changes the collaborators as its trace says |
| PagesApi.Handler | app/api/enquiry/enquiry.js:5-93 | a method other than POST gets status 405 with `Allow: ["POST"]` and "Method X Not Allowed" and touches no collaborator; a POST writes the status and JSON of `Run` with the unencoded body |
| MongoCache.ConnectionCache.constructor | lib/mongodb.js:7 | the cache starts as `{conn: null, promise: null}` with no connect made |
| MongoCache.LoadModule | lib/mongodb.js:4-8 | an existing `global.mongoose` is reused as it is; otherwise a fresh empty cache is created and published |
| MongoCache.ConnectionCache.ConnectToDatabase | lib/mongodb.js:10-30 | a cached connection is returned without connecting; a connect starts only when no promise is cached; afterwards `conn` holds what the promise settled to; at most one connect is ever made |
| MongoCache.Step | lib/mongodb.js:10-30 | one `connectToDatabase()` call returns what the cache then holds in `conn`; it starts a connect exactly on the fresh cache; a cache that already has `conn` is left as it is; otherwise the promise is kept, settled to the returned value |
| MongoCache.StepReachable | lib/mongodb.js:10-30 | every call keeps the cache reachable, connects exactly when the cache is fresh, and returns the new `conn` |
| MongoCache.SettledForever | lib/mongodb.js:20-29 | once the promise has settled, every later call returns the same value, connects no more and leaves the cache as it is; a failed connect stays failed for good |
| MongoCache.OneConnectPerProcess | lib/mongodb.js:15-26 | over any sequence of calls at most one connect is made, and every call returns what that one attempt settled to |
| EndToEnd.ValidFormPassesServerChecks | app/components/EnquiryForm.jsx:92-103 | a form the client lets through carries a truthy token and five truthy fields |
| EndToEnd.BlankNamePassesServerOnly | app/api/enquiry/route.js:42 | a whitespace-only name the form refuses would pass the handler's field check |
| EndToEnd.StatusLine | app/components/EnquiryForm.jsx:108-122 | a 2xx answer reads as the success text; any other answer shows the handler's message |
| EndToEnd.NoMessageReadsAsSuccess | app/components/EnquiryForm.jsx:109-121 | no handler message equals the form's success text |
| EndToEnd.AnswersAfterChecks | app/api/enquiry/route.js:33-95 | once the token and fields are present, the answer is 200, the verification failure, or a 500 "Internal Server Error" |
| EndToEnd.StatusAfterSubmit | app/components/EnquiryForm.jsx:106-122 | for a valid form the status line reads the success text exactly when the enquiry was stored once and mailed once; otherwise it reads the verification failure or "Internal Server Error" |
| EndToEnd.StoredButReportedAsError | app/api/enquiry/route.js:77-95 | after a mail failure the visitor reads "Internal Server Error" although the enquiry is stored |
| EndToEnd.Deliver | app/components/EnquiryForm.jsx:99-126 | the posted half of a submit: the collaborators change as `Run` says, the status is what the form makes of `Run`'s answer; a completed run resets the form and the errors and schedules one close when floating, any other run keeps form, errors and timers |
| EndToEnd.OkIffCompleted | app/components/EnquiryForm.jsx:108 | `res.ok` holds exactly when the handler's run stored and mailed the enquiry |
| EndToEnd.SubmitEnquiry | app/components/EnquiryForm.jsx:88-127 | one call of `handleSubmit` answered by `POST`, with the popup's open state unchanged. An invalid form: the status is the fix-errors text, the error map is the validator's, the form, request log and timers are unchanged, and no collaborator is touched. A valid form: posted once, the collaborators change as `Run` says, its status is the one `Run`'s answer gives, its error map is empty; it resets and schedules a close (when floating) exactly when the run completed, otherwise keeps its values |

## Left out

- The network and library internals of `fetch` to siteverify, `mongoose.connect`, `save`, `nodemailer` and `NextResponse`/`res` serialisation: reduced to the result each returns or the message it throws.
- The HTML body of the notification mail: the model keeps the five values it shows but not the markup.
- The browser's constraint validation (`required`, `type="email"`): it cancels the submit event before `handleSubmit` runs; the model starts at `handleSubmit`. A press with an empty field, or with an e-mail such as `a@b_c.d` that the page's pattern accepts but the browser's e-mail check does not, never reaches the handler.
- Console logging: no observable effect on responses or state.
- The reCAPTCHA readiness poll (`setTimeout(checkReady, 500)`) and the widget rendering: timers and DOM, outside the state machine.
- The 1500 ms delay itself: only that a close is scheduled, and when it fires, is modelled.
- `window.openEnquiryForm` exposure, popup position, animations and styling: UI only, beyond the `Open` transition.
- React's state batching: each handler is modelled as acting on the latest state. A stale `form` captured before a re-render is not modelled.
- Concurrency between requests: each request is one sequential run. The cache is shared between runs, but interleaved awaits are not modelled.
- `null` and `undefined` are not told apart: both are `None` in the connection cache, and an expired reCAPTCHA token is modelled as "". Both are only tested for truthiness.
- Request bodies whose properties are not strings: each of the six is an optional string.
- JavaScript string lengths count UTF-16 code units, the model counts Unicode scalar values. These agree on every name and phone the keystroke filter admits.
- Uri.EncodeURIComponent: lone surrogates, which make the JavaScript function throw, cannot occur in Dafny strings; decoding is not modelled.
