/**
 * The enquiry form component: its state (form fields, error map, status
 * line, popup flag), the keystroke filter, the reCAPTCHA callback, the
 * submit-time validator and the two halves of the submit handler.
 */
module Form {
  import opened Wrappers
  import opened Text

  datatype FormData = FormData(name: string, email: string, phone: string, service: string,
                               message: string, recaptchaToken: string)

  const EmptyForm := FormData("", "", "", "", "", "")

  /** The named inputs that report changes through the keystroke handler. */
  datatype Field = Name | Email | Phone | Service | Message

  /** Keys of the error map: one per input, plus `recaptcha`. */
  datatype ErrorKey = OnField(field: Field) | OnRecaptcha

  const NameRequired := "Name is required"
  const NameTooShort := "Name must be at least 2 characters"
  const EmailRequired := "Email is required"
  const EmailInvalid := "Invalid email format"
  const PhoneRequired := "Phone is required"
  const PhoneInvalid := "Enter a valid 10-digit number"
  const ServiceRequired := "Please select a service"
  const MessageRequired := "Message is required"
  const RecaptchaRequired := "Please complete reCAPTCHA"

  const FixErrors := "\U{274C} Please fix the highlighted errors!"
  const Submitting := "Submitting..."
  const Submitted := "\U{2705} Enquiry submitted successfully!"
  const SomethingWrong := "\U{274C} Something went wrong!"
  const NetworkError := "\U{274C} Network or server error!"

  function Get(f: FormData, field: Field): string {
    match field
    case Name => f.name
    case Email => f.email
    case Phone => f.phone
    case Service => f.service
    case Message => f.message
  }

  /** `{ ...form, [name]: value }`: the named field takes the new value, nothing else changes. */
  function Put(f: FormData, field: Field, value: string): (r: FormData)
    ensures Get(r, field) == value
    ensures forall g :: g != field ==> Get(r, g) == Get(f, g)
    ensures r.recaptchaToken == f.recaptchaToken
  {
    match field
    case Name => f.(name := value)
    case Email => f.(email := value)
    case Phone => f.(phone := value)
    case Service => f.(service := value)
    case Message => f.(message := value)
  }

  // ---------------------------------------------------------------- keystroke filter

  /** `!/[^a-zA-Z\s]/.test(value)` */
  predicate NameChars(value: string) {
    forall i :: 0 <= i < |value| ==> IsAsciiLetter(value[i]) || IsSpace(value[i])
  }

  /** `/^\d*$/.test(value) && value.length <= 10` */
  predicate PhoneChars(value: string) {
    AllDigits(value) && |value| <= 10
  }

  /** Whether the keystroke handler takes `value` into state for `field`. */
  predicate Accepts(field: Field, value: string) {
    match field
    case Name => NameChars(value)
    case Phone => PhoneChars(value)
    case _ => true
  }

  /** What every handler keeps true of the form: the name is letters and whitespace,
      the phone at most ten digits. */
  predicate KeystrokeInvariant(f: FormData) {
    NameChars(f.name) && PhoneChars(f.phone)
  }

  // ---------------------------------------------------------------- e-mail pattern

  /** Neither whitespace nor `@`: the class `[^\s@]`. */
  predicate Plain(c: char) {
    !IsSpace(c) && c != '@'
  }

  predicate AllPlain(s: string) {
    forall i :: 0 <= i < |s| ==> Plain(s[i])
  }

  /** `s` reads as a run of `[^\s@]`, the `@` at `at`, a run, the `.` at `dot`, and a final run. */
  predicate EmailSplit(s: string, at: int, dot: int) {
    && 0 < at && at + 1 < dot < |s| - 1
    && s[at] == '@' && s[dot] == '.'
    && AllPlain(s[..at]) && AllPlain(s[at + 1..dot]) && AllPlain(s[dot + 1..])
  }

  /** The meaning of `/^[^\s@]+@[^\s@]+\.[^\s@]+$/.test(s)`: some split of that form exists. */
  predicate EmailPattern(s: string) {
    exists at, dot | 0 < at < |s| && 0 < dot < |s| :: EmailSplit(s, at, dot)
  }

  /** The domain part has a `.` that is neither its first nor its last character. */
  predicate InnerDot(d: string) {
    exists j | 0 < j < |d| - 1 :: d[j] == '.'
  }

  predicate NoSpace(s: string) {
    forall i :: 0 <= i < |s| ==> !IsSpace(s[i])
  }

  lemma {:induction false} PlainAround(a: string, c: char, b: string)
    ensures AllPlain(a + [c] + b) <==> AllPlain(a) && Plain(c) && AllPlain(b)
  {
    var s := a + [c] + b;
    assert forall i :: 0 <= i < |a| ==> s[i] == a[i];
    assert s[|a|] == c;
    assert forall i :: 0 <= i < |b| ==> s[|a| + 1 + i] == b[i];
    if AllPlain(a) && Plain(c) && AllPlain(b) {
      forall i | 0 <= i < |s| ensures Plain(s[i]) {
        if i > |a| { assert s[i] == b[i - |a| - 1]; }
      }
    }
  }

  lemma {:induction false} NoSpaceAround(a: string, c: char, b: string)
    ensures NoSpace(a + [c] + b) <==> NoSpace(a) && !IsSpace(c) && NoSpace(b)
  {
    var s := a + [c] + b;
    assert forall i :: 0 <= i < |a| ==> s[i] == a[i];
    assert s[|a|] == c;
    assert forall i :: 0 <= i < |b| ==> s[|a| + 1 + i] == b[i];
    if NoSpace(a) && !IsSpace(c) && NoSpace(b) {
      forall i | 0 <= i < |s| ensures !IsSpace(s[i]) {
        if i > |a| { assert s[i] == b[i - |a| - 1]; }
      }
    }
  }

  /** Around an `@`: both sides are runs of `[^\s@]` exactly when the whole has no whitespace and one `@`. */
  lemma {:induction false} SplitAtSign(s: string, at: nat)
    requires at < |s| && s[at] == '@'
    ensures AllPlain(s[..at]) && AllPlain(s[at + 1..]) <==> NoSpace(s) && Count(s, '@') == 1
  {
    var l, r := s[..at], s[at + 1..];
    assert s == l + [s[at]] + r;
    NoSpaceAround(l, s[at], r);
    CountConcat(l + [s[at]], r, '@');
    CountConcat(l, [s[at]], '@');
    assert AllPlain(l) <==> NoSpace(l) && '@' !in l;
    assert AllPlain(r) <==> NoSpace(r) && '@' !in r;
  }

  /** Around a `.`: the whole is a run of `[^\s@]` exactly when both sides are. */
  lemma {:induction false} SplitAtDot(d: string, j: nat)
    requires j < |d| && d[j] == '.'
    ensures AllPlain(d) <==> AllPlain(d[..j]) && AllPlain(d[j + 1..])
  {
    assert d == d[..j] + [d[j]] + d[j + 1..];
    PlainAround(d[..j], d[j], d[j + 1..]);
  }

  /** An `@` at `at`, not first, followed by a part with an inner `.`. */
  predicate DomainAt(s: string, at: int) {
    0 < at < |s| && s[at] == '@' && InnerDot(s[at + 1..])
  }

  /** The shape the e-mail check demands, in other words: exactly one `@`, not first; no whitespace;
      and a `.` inside the part after the `@`. */
  predicate EmailShape(s: string) {
    && Count(s, '@') == 1
    && NoSpace(s)
    && exists at | 0 < at < |s| :: DomainAt(s, at)
  }

  /** The e-mail pattern accepts exactly the strings of that shape. */
  lemma EmailPatternShape(s: string)
    ensures EmailPattern(s) <==> EmailShape(s)
  {
    if EmailPattern(s) { PatternHasShape(s); }
    if EmailShape(s) { ShapeMatchesPattern(s); }
  }

  lemma {:induction false} PatternHasShape(s: string)
    requires EmailPattern(s)
    ensures EmailShape(s)
  {
    var at, dot :| 0 < at < |s| && 0 < dot < |s| && EmailSplit(s, at, dot);
    var d := s[at + 1..];
    var j := dot - at - 1;
    assert 0 < j < |d| - 1;
    assert d[..j] == s[at + 1..dot] && d[j + 1..] == s[dot + 1..] && d[j] == '.';
    SplitAtDot(d, j);
    SplitAtSign(s, at);
    assert InnerDot(d);
    assert DomainAt(s, at);
  }

  lemma {:induction false} ShapeMatchesPattern(s: string)
    requires EmailShape(s)
    ensures EmailPattern(s)
  {
    var at :| 0 < at < |s| && DomainAt(s, at);
    var d := s[at + 1..];
    var j :| 0 < j < |d| - 1 && d[j] == '.';
    var dot := at + 1 + j;
    SplitAtSign(s, at);
    SplitAtDot(d, j);
    assert d[..j] == s[at + 1..dot] && d[j + 1..] == s[dot + 1..] && s[dot] == '.';
    assert EmailSplit(s, at, dot);
  }

  // ---------------------------------------------------------------- submit-time validation

  /** `/^\d{10}$/.test(phone)` */
  predicate TenDigits(phone: string) {
    |phone| == 10 && AllDigits(phone)
  }

  /** The checks of `validateForm`, field by field; the "required" test comes first. */
  function NameError(name: string): Option<string> {
    if Trim(name) == "" then Some(NameRequired)
    else if |name| < 2 then Some(NameTooShort)
    else None
  }

  function EmailError(email: string): Option<string> {
    if Trim(email) == "" then Some(EmailRequired)
    else if !EmailPattern(email) then Some(EmailInvalid)
    else None
  }

  function PhoneError(phone: string): Option<string> {
    if Trim(phone) == "" then Some(PhoneRequired)
    else if !TenDigits(phone) then Some(PhoneInvalid)
    else None
  }

  function ServiceError(service: string): Option<string> {
    if service == "" then Some(ServiceRequired) else None
  }

  function MessageError(message: string): Option<string> {
    if Trim(message) == "" then Some(MessageRequired) else None
  }

  function RecaptchaError(token: string): Option<string> {
    if token == "" then Some(RecaptchaRequired) else None
  }

  /** The message `validateForm` stores under `key`, if any. */
  function ErrorFor(f: FormData, key: ErrorKey): Option<string> {
    match key
    case OnField(Name) => NameError(f.name)
    case OnField(Email) => EmailError(f.email)
    case OnField(Phone) => PhoneError(f.phone)
    case OnField(Service) => ServiceError(f.service)
    case OnField(Message) => MessageError(f.message)
    case OnRecaptcha => RecaptchaError(f.recaptchaToken)
  }

  /** Records `e` under `k` when there is one. */
  function With(m: map<ErrorKey, string>, k: ErrorKey, e: Option<string>): map<ErrorKey, string> {
    if e.Some? then m[k := e.value] else m
  }

  /** The error map `validateForm` builds, one check after another. */
  function FormErrors(f: FormData): map<ErrorKey, string> {
    var m := With(map[], OnField(Name), NameError(f.name));
    var m := With(m, OnField(Email), EmailError(f.email));
    var m := With(m, OnField(Phone), PhoneError(f.phone));
    var m := With(m, OnField(Service), ServiceError(f.service));
    var m := With(m, OnField(Message), MessageError(f.message));
    With(m, OnRecaptcha, RecaptchaError(f.recaptchaToken))
  }

  /** Every key holds at most one message, and holds one exactly when its check fails. */
  lemma ErrorsAt(f: FormData, k: ErrorKey)
    ensures k in FormErrors(f) <==> ErrorFor(f, k).Some?
    ensures k in FormErrors(f) ==> FormErrors(f)[k] == ErrorFor(f, k).value
  {
    var e1, e2, e3 := NameError(f.name), EmailError(f.email), PhoneError(f.phone);
    var e4, e5, e6 := ServiceError(f.service), MessageError(f.message), RecaptchaError(f.recaptchaToken);
    var m1 := With(map[], OnField(Name), e1);
    var m2 := With(m1, OnField(Email), e2);
    var m3 := With(m2, OnField(Phone), e3);
    var m4 := With(m3, OnField(Service), e4);
    var m5 := With(m4, OnField(Message), e5);
    assert FormErrors(f) == With(m5, OnRecaptcha, e6);
    match k
    case OnField(Name) =>
    case OnField(Email) =>
    case OnField(Phone) =>
    case OnField(Service) =>
    case OnField(Message) =>
    case OnRecaptcha =>
  }

  /** The submission rules, stated independently of the validator's code. */
  predicate Submittable(f: FormData) {
    && !AllSpace(f.name) && |f.name| >= 2
    && EmailPattern(f.email)
    && TenDigits(f.phone)
    && f.service != ""
    && !AllSpace(f.message)
    && f.recaptchaToken != ""
  }

  /** `validateForm()` returns true exactly when every rule holds. */
  lemma {:induction false} ValidIffRules(f: FormData)
    ensures |FormErrors(f)| == 0 <==> Submittable(f)
  {
    TrimEmptyIff(f.name);
    TrimEmptyIff(f.email);
    TrimEmptyIff(f.phone);
    TrimEmptyIff(f.message);
    var m := FormErrors(f);
    forall k ensures k in m <==> ErrorFor(f, k).Some? { ErrorsAt(f, k); }
    if Submittable(f) {
      assert !AllSpace(f.email) by {
        var at, dot :| 0 < at < |f.email| && 0 < dot < |f.email| && EmailSplit(f.email, at, dot);
        assert f.email[..at][0] == f.email[0];
      }
      assert !AllSpace(f.phone) by { assert IsDigit(f.phone[0]); }
      assert m.Keys == {};
    } else {
      var k: ErrorKey :| ErrorFor(f, k).Some? by {
        if AllSpace(f.name) || |f.name| < 2 { assert ErrorFor(f, OnField(Name)).Some?; }
        else if !EmailPattern(f.email) { assert ErrorFor(f, OnField(Email)).Some?; }
        else if !TenDigits(f.phone) { assert ErrorFor(f, OnField(Phone)).Some?; }
        else if f.service == "" { assert ErrorFor(f, OnField(Service)).Some?; }
        else if AllSpace(f.message) { assert ErrorFor(f, OnField(Message)).Some?; }
        else { assert ErrorFor(f, OnRecaptcha).Some?; }
      }
      assert k in m;
    }
  }

  /** A form that meets the submission rules gets an empty error map. */
  lemma SubmittableHasNoErrors(f: FormData)
    requires Submittable(f)
    ensures FormErrors(f) == map[]
  {
    ValidIffRules(f);
  }

  /** Whether the validator treats the field as empty: blank after trimming (any value for the service). */
  predicate Blank(f: FormData, field: Field) {
    if field == Service then f.service == "" else AllSpace(Get(f, field))
  }

  function RequiredMessage(field: Field): string {
    match field
    case Name => NameRequired
    case Email => EmailRequired
    case Phone => PhoneRequired
    case Service => ServiceRequired
    case Message => MessageRequired
  }

  /** The format message a non-blank value can get; the service and the message have none. */
  function FormatMessage(field: Field): Option<string> {
    match field
    case Name => Some(NameTooShort)
    case Email => Some(EmailInvalid)
    case Phone => Some(PhoneInvalid)
    case Service => None
    case Message => None
  }

  /** A blank field always gets its "required" message, whatever else is wrong with it;
      a non-blank field gets at most its format message. */
  lemma {:induction false} RequiredTakesPrecedence(f: FormData, field: Field)
    ensures Blank(f, field) ==> OnField(field) in FormErrors(f) && FormErrors(f)[OnField(field)] == RequiredMessage(field)
    ensures !Blank(f, field) && OnField(field) in FormErrors(f) ==> Some(FormErrors(f)[OnField(field)]) == FormatMessage(field)
  {
    TrimEmptyIff(Get(f, field));
    ErrorsAt(f, OnField(field));
  }

  // ---------------------------------------------------------------- the component

  /** What the `fetch` of `/api/enquiry` produced: a parsed response (its `ok` flag and the
      `message` of its JSON body), or an exception from `fetch` or `res.json()`. */
  datatype FetchOutcome = Responded(ok: bool, message: Option<string>) | FetchFailed

  /** The status line after the response: success text, the server's non-empty message or the
      fallback, or the network-error text. */
  function ResponseStatus(outcome: FetchOutcome): (status: string)
    ensures outcome.Responded? && !outcome.ok && outcome.message.Some? && outcome.message.value != "" ==> status == outcome.message.value
    ensures outcome.Responded? && outcome.ok ==> status == Submitted
    ensures outcome.Responded? && !outcome.ok && !(outcome.message.Some? && outcome.message.value != "") ==> status == SomethingWrong
    ensures outcome.FetchFailed? ==> status == NetworkError
    ensures status != ""
  {
    match outcome
    case Responded(ok, message) =>
      if ok then Submitted
      else if message.Some? && message.value != "" then message.value
      else SomethingWrong
    case FetchFailed => NetworkError
  }

  /** One rule of `validateForm`: the "required" message when `missing`, else the format message
      when `malformed`, else nothing recorded under `key`. */
  method ApplyRule(errors: map<ErrorKey, string>, key: ErrorKey, missing: bool, required: string,
                   malformed: bool, format: string) returns (r: map<ErrorKey, string>)
    ensures r == With(errors, key, if missing then Some(required) else if malformed then Some(format) else None)
  {
    r := errors;
    if missing {
      r := r[key := required];
    } else if malformed {
      r := r[key := format];
    }
  }

  class EnquiryForm {
    /** The `floating` prop: a popup behind a button rather than an embedded form. */
    const floating: bool
    var isOpen: bool
    var form: FormData
    var errors: map<ErrorKey, string>
    var status: string
    /** Close timers (`setTimeout(() => setIsOpen(false), 1500)`) scheduled but not yet fired. */
    var pendingCloses: nat
    /** Bodies posted to `/api/enquiry`, in order. */
    ghost var requests: seq<FormData>

    ghost predicate Valid()
      reads this
    {
      KeystrokeInvariant(form)
    }

    constructor (floating: bool)
      ensures Valid()
      ensures this.floating == floating && !isOpen && form == EmptyForm && errors == map[]
      ensures status == "" && pendingCloses == 0 && requests == []
    {
      this.floating := floating;
      isOpen := false;
      form := EmptyForm;
      errors := map[];
      status := "";
      pendingCloses := 0;
      requests := [];
    }

    /** The "Enquire Now" button, or `window.openEnquiryForm()`. */
    method Open()
      modifies this`isOpen
      ensures isOpen
    {
      isOpen := true;
    }

    /** The popup's close button. */
    method Close()
      modifies this`isOpen
      ensures !isOpen
    {
      isOpen := false;
    }

    /** `handleChange`: a rejected value leaves the form as it was; an accepted one replaces only its field. */
    method HandleChange(field: Field, value: string)
      requires Valid()
      modifies this`form
      ensures Valid()
      ensures !Accepts(field, value) ==> form == old(form)
      ensures Accepts(field, value) ==>
        && Get(form, field) == value
        && (forall g :: g != field ==> Get(form, g) == Get(old(form), g))
        && form.recaptchaToken == old(form).recaptchaToken
    {
      if field == Name {
        if !NameChars(value) { return; }
      }
      if field == Phone {
        if !AllDigits(value) { return; }
        if |value| > 10 { return; }
      }
      form := Put(form, field, value);
    }

    /** `handleRecaptchaChange`: only the token changes. */
    method HandleRecaptchaChange(token: string)
      requires Valid()
      modifies this`form
      ensures Valid()
      ensures form == old(form).(recaptchaToken := token)
    {
      form := form.(recaptchaToken := token);
    }

    /** `validateForm`: fills a fresh error map check by check, stores it, and reports whether it is empty. */
    method ValidateForm() returns (ok: bool)
      modifies this`errors
      ensures errors == FormErrors(form)
      ensures ok <==> Submittable(form)
    {
      var newErrors: map<ErrorKey, string> := map[];
      newErrors := ApplyRule(newErrors, OnField(Name), Trim(form.name) == "", NameRequired, |form.name| < 2, NameTooShort);
      newErrors := ApplyRule(newErrors, OnField(Email), Trim(form.email) == "", EmailRequired, !EmailPattern(form.email), EmailInvalid);
      newErrors := ApplyRule(newErrors, OnField(Phone), Trim(form.phone) == "", PhoneRequired, !TenDigits(form.phone), PhoneInvalid);
      newErrors := ApplyRule(newErrors, OnField(Service), form.service == "", ServiceRequired, false, "");
      newErrors := ApplyRule(newErrors, OnField(Message), Trim(form.message) == "", MessageRequired, false, "");
      newErrors := ApplyRule(newErrors, OnRecaptcha, form.recaptchaToken == "", RecaptchaRequired, false, "");
      errors := newErrors;
      ok := |newErrors| == 0;
      ValidIffRules(form);
    }

    /** `handleSubmit` up to its `await`: a form that fails validation is not sent and keeps its
        values; a valid one is posted as it stands. Nothing here looks at earlier requests still in flight. */
    method HandleSubmit() returns (request: Option<FormData>)
      requires Valid()
      modifies this`errors, this`status, this`requests
      ensures Valid()
      ensures errors == FormErrors(form)
      ensures request.Some? <==> Submittable(form)
      ensures request.Some? ==> request.value == form && status == Submitting && requests == old(requests) + [form]
      ensures request.Some? ==> errors == map[]
      ensures request.None? ==> status == FixErrors && requests == old(requests)
    {
      status := "";
      var ok := ValidateForm();
      if !ok {
        status := FixErrors;
        return None;
      }
      SubmittableHasNoErrors(form);
      status := Submitting;
      requests := requests + [form];
      return Some(form);
    }

    /** `handleSubmit` after its `await`: success clears every field and the errors and, for the popup,
        schedules the close; any failure only sets the status line. */
    method CompleteSubmit(outcome: FetchOutcome)
      requires Valid()
      modifies this`form, this`errors, this`status, this`pendingCloses
      ensures Valid()
      ensures status == ResponseStatus(outcome)
      ensures outcome.Responded? && outcome.ok ==>
        && form == EmptyForm && errors == map[]
        && pendingCloses == old(pendingCloses) + (if floating then 1 else 0)
      ensures !(outcome.Responded? && outcome.ok) ==>
        form == old(form) && errors == old(errors) && pendingCloses == old(pendingCloses)
    {
      match outcome
      case Responded(ok, message) =>
        if ok {
          status := Submitted;
          form := EmptyForm;
          errors := map[];
          if floating { pendingCloses := pendingCloses + 1; }
        } else {
          status := if message.Some? && message.value != "" then message.value else SomethingWrong;
        }
      case FetchFailed =>
        status := NetworkError;
    }

    /** A scheduled close timer fires: the popup closes, even if it was opened again meanwhile. */
    method FireCloseTimer()
      requires pendingCloses > 0
      modifies this`isOpen, this`pendingCloses
      ensures !isOpen && pendingCloses == old(pendingCloses) - 1
    {
      isOpen := false;
      pendingCloses := pendingCloses - 1;
    }
  }

  /** A popup filled in with any acceptable, valid values whose `handleSubmit` is called twice before
      a response arrives posts the same body twice: nothing guards against a second request in flight. */
  method ResubmitWhileInFlight(values: FormData) returns (first: Option<FormData>, second: Option<FormData>)
    requires KeystrokeInvariant(values) && Submittable(values)
    ensures first == Some(values) && second == Some(values)
  {
    var c := new EnquiryForm(true);
    c.Open();
    c.HandleChange(Name, values.name);
    c.HandleChange(Email, values.email);
    c.HandleChange(Phone, values.phone);
    c.HandleChange(Service, values.service);
    c.HandleChange(Message, values.message);
    c.HandleRecaptchaChange(values.recaptchaToken);
    assert c.form == values;
    first := c.HandleSubmit();
    second := c.HandleSubmit();
  }
}
