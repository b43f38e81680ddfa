/** The contact relay: the subject and body built from a contact form, the
    headers of the mail, the checks send_mail makes before any send, and the
    endpoint's mapping of every send failure to a 500. The SMTP session is
    replaced by a value that says how delivery went. */
module Contact {
  import opened Wrappers

  /** A contact form after schema validation of its email field. */
  datatype ContactIn = ContactIn(
    firstName: string,
    lastName: string,
    email: string,
    phone: Option<string>,
    product: Option<string>,
    subject: Option<string>,
    message: string)

  /** The schema's min_length=1 on first name, last name and message. */
  predicate MeetsMinLengths(c: ContactIn) {
    |c.firstName| >= 1 && |c.lastName| >= 1 && |c.message| >= 1
  }

  const DefaultSubject: string := "New contact message from PlyCraft"
  const Placeholder: string := "-"
  const NoCredentials: string := "SMTP credentials are not configured"

  /** Python's x or default on an optional string: None and "" both give the
      default, any other string is kept. */
  function OrDefault(x: Option<string>, default: string): (r: string)
    ensures x.Some? && x.value != "" ==> r == x.value
    ensures x.None? || x.value == "" ==> r == default
  {
    if x.Some? && x.value != "" then x.value else default
  }

  function Subject(c: ContactIn): string {
    OrDefault(c.subject, DefaultSubject)
  }

  /** The body as the handler builds it from five adjacent f-strings. */
  function Body(c: ContactIn): string {
    ("Name: " + c.firstName + " " + c.lastName + "\n")
    + ("Email: " + c.email + "\n")
    + ("Phone: " + OrDefault(c.phone, Placeholder) + "\n")
    + ("Product: " + OrDefault(c.product, Placeholder) + "\n\n")
    + ("Message:\n" + c.message + "\n")
  }

  /** The seven lines the body is made of, in order. */
  function BodyLines(c: ContactIn): seq<string> {
    [ "Name: " + c.firstName + " " + c.lastName,
      "Email: " + c.email,
      "Phone: " + OrDefault(c.phone, Placeholder),
      "Product: " + OrDefault(c.product, Placeholder),
      "",
      "Message:",
      c.message ]
  }

  // ---------------------------------------------------------------- lines

  /** The lines, each followed by a newline. */
  function JoinLines(lines: seq<string>): string {
    if lines == [] then [] else lines[0] + "\n" + JoinLines(lines[1..])
  }

  /** Length of the text before the first newline of s. */
  function LineLength(s: string): (n: nat)
    ensures n <= |s| && '\n' !in s[..n]
    ensures n < |s| ==> s[n] == '\n'
  {
    if s == [] || s[0] == '\n' then 0
    else
      var m := LineLength(s[1..]);
      assert s[..m + 1] == [s[0]] + s[1..][..m];
      1 + m
  }

  /** The lines of s split at "\n" only; unlike str.splitlines(), no other
      line break (see IsLineBreak) ends a line here. */
  function NewlineLines(s: string): seq<string>
    decreases |s|
  {
    if s == [] then []
    else
      var n := LineLength(s);
      if n == |s| then [s] else [s[..n]] + NewlineLines(s[n + 1..])
  }

  predicate OneLine(s: string) {
    '\n' !in s
  }

  lemma LineLengthAt(s: string, k: nat)
    requires k < |s| && '\n' !in s[..k] && s[k] == '\n'
    ensures LineLength(s) == k
  {
    var n := LineLength(s);
  }

  /** Splitting undoes joining when no line holds a newline. */
  lemma {:induction false} SplitJoin(lines: seq<string>)
    requires forall i :: 0 <= i < |lines| ==> OneLine(lines[i])
    ensures NewlineLines(JoinLines(lines)) == lines
  {
    if lines != [] {
      var l := lines[0];
      var s := JoinLines(lines);
      assert s == l + ("\n" + JoinLines(lines[1..]));
      assert s[..|l|] == l && s[|l|] == '\n';
      LineLengthAt(s, |l|);
      assert s[|l| + 1..] == JoinLines(lines[1..]);
      SplitJoin(lines[1..]);
    }
  }

  /** The body is exactly its seven lines, each ended by a newline. */
  lemma BodyIsItsLines(c: ContactIn)
    ensures Body(c) == JoinLines(BodyLines(c))
  {
    var ls := BodyLines(c);
    var t4 := "\n" + ("Message:" + "\n" + (c.message + "\n"));
    assert JoinLines(ls[4..]) == t4 by {
      assert JoinLines(ls[6..]) == c.message + "\n";
      assert JoinLines(ls[5..]) == "Message:" + "\n" + (c.message + "\n");
    }
    assert JoinLines(ls[3..]) == ls[3] + "\n" + t4;
    assert JoinLines(ls[2..]) == ls[2] + "\n" + JoinLines(ls[3..]);
    assert JoinLines(ls[1..]) == ls[1] + "\n" + JoinLines(ls[2..]);
    assert ls[3] + "\n" + t4 == ("Product: " + OrDefault(c.product, Placeholder) + "\n\n") + ("Message:\n" + c.message + "\n");
  }

  /** When no field holds a newline, the body reads back as exactly the seven
      lines: name, email, phone, product, a blank line, "Message:" and the
      message. */
  lemma BodyReadsBack(c: ContactIn)
    requires OneLine(c.firstName) && OneLine(c.lastName) && OneLine(c.email) && OneLine(c.message)
    requires c.phone.Some? ==> OneLine(c.phone.value)
    requires c.product.Some? ==> OneLine(c.product.value)
    ensures NewlineLines(Body(c)) == BodyLines(c)
  {
    var ls := BodyLines(c);
    assert OneLine(ls[0]);
    assert OneLine(ls[1]);
    assert OneLine(ls[2]);
    assert OneLine(ls[3]);
    BodyIsItsLines(c);
    SplitJoin(ls);
  }

  // ---------------------------------------------------------------- sending

  /** int(os.getenv("SMTP_PORT")): a port number, or the text of the error
      int() raises when the variable is unset or not a number. */
  datatype Port = Port(number: int) | PortUnreadable(reason: string)

  datatype SmtpConfig = SmtpConfig(
    host: Option<string>, port: Port, username: Option<string>, password: Option<string>)

  /** How the SMTP session went: delivered, or the error text of connect,
      STARTTLS, login or send. */
  datatype Delivery = Delivered | DeliveryFailed(reason: string)

  datatype MailMessage = MailMessage(
    from: string, replyTo: string, to: string, subject: string, body: string)

  datatype SendResult = Sent(message: MailMessage) | SendError(reason: string)

  /** `if not (username and password)`: both present and non-empty. */
  predicate HasCredentials(cfg: SmtpConfig) {
    && cfg.username.Some? && cfg.username.value != ""
    && cfg.password.Some? && cfg.password.value != ""
  }

  /** The characters at which Python's str.splitlines() breaks a line. */
  predicate IsLineBreak(c: char) {
    || c == '\n' || c == '\r' || c == '\U{0b}' || c == '\U{0c}'
    || ('\U{1c}' <= c <= '\U{1e}')
    || c == '\U{85}' || c == '\U{2028}' || c == '\U{2029}'
  }

  /** len(v.splitlines()) <= 1, the test EmailMessage's default policy makes
      when a header is set: a line break may only end the value (a final
      "\r\n" counts as one break). */
  predicate HeaderSafe(v: string) {
    forall i :: 0 <= i < |v| && IsLineBreak(v[i]) ==> EndsValue(v, i)
  }

  /** Position i is the last of v, or the "\r" of a final "\r\n". */
  predicate EndsValue(v: string, i: int)
    requires 0 <= i < |v|
  {
    i == |v| - 1 || (i == |v| - 2 && v[i] == '\r' && v[i + 1] == '\n')
  }

  const HeaderLineBreak: string := "Header values may not contain linefeed or carriage return characters"

  /** send_mail: the port is read first, then the credentials are checked,
      then the From, Reply-To, To and Subject headers are set, which raises
      on a value with an inner line break, and only then is the message
      handed to the session. */
  function SendMail(subject: string, body: string, toEmail: string, fromEmail: string,
                    cfg: SmtpConfig, delivery: Delivery): (r: SendResult)
    ensures r.Sent? <==> cfg.port.Port? && HasCredentials(cfg)
                         && HeaderSafe(fromEmail) && HeaderSafe(toEmail) && HeaderSafe(subject)
                         && delivery.Delivered?
    ensures r.Sent? ==> r.message.from == fromEmail && r.message.replyTo == fromEmail
    ensures r.Sent? ==> r.message.to == toEmail && r.message.subject == subject && r.message.body == body
    ensures cfg.port.PortUnreadable? ==> r == SendError(cfg.port.reason)
    ensures cfg.port.Port? && !HasCredentials(cfg) ==> r == SendError(NoCredentials)
    ensures cfg.port.Port? && HasCredentials(cfg)
            && !(HeaderSafe(fromEmail) && HeaderSafe(toEmail) && HeaderSafe(subject))
            ==> r == SendError(HeaderLineBreak)
    ensures cfg.port.Port? && HasCredentials(cfg)
            && HeaderSafe(fromEmail) && HeaderSafe(toEmail) && HeaderSafe(subject)
            && delivery.DeliveryFailed?
            ==> r == SendError(delivery.reason)
  {
    if cfg.port.PortUnreadable? then SendError(cfg.port.reason)
    else if !HasCredentials(cfg) then SendError(NoCredentials)
    else if !(HeaderSafe(fromEmail) && HeaderSafe(toEmail) && HeaderSafe(subject)) then SendError(HeaderLineBreak)
    else
      var msg := MailMessage(fromEmail, fromEmail, toEmail, subject, body);
      match delivery
      case Delivered => Sent(msg)
      case DeliveryFailed(reason) => SendError(reason)
  }

  /** contact_send: a form that passes the schema is turned into a mail to
      the configured inbox; success answers {ok: true}, shown here with the
      mail that was handed over, and any send failure becomes a 500 whose
      detail is the error text. */
  function ContactSend(c: ContactIn, mailTo: string, cfg: SmtpConfig, delivery: Delivery): (r: Result<MailMessage>)
    ensures !MeetsMinLengths(c) ==> r == Err(SchemaRejected)
    ensures r.Err? && MeetsMinLengths(c) ==> r.error.HttpError? && r.error.status == 500
    ensures MeetsMinLengths(c) ==>
      match SendMail(Subject(c), Body(c), mailTo, c.email, cfg, delivery)
      case Sent(msg) => r == Ok(msg)
      case SendError(reason) => r == Err(HttpError(500, reason))
    ensures MeetsMinLengths(c) && cfg.port.PortUnreadable? ==> r == Err(HttpError(500, cfg.port.reason))
    ensures MeetsMinLengths(c) && cfg.port.Port? && HasCredentials(cfg)
            && !(HeaderSafe(c.email) && HeaderSafe(mailTo) && HeaderSafe(Subject(c)))
            ==> r == Err(HttpError(500, HeaderLineBreak))
  {
    if !MeetsMinLengths(c) then Err(SchemaRejected)
    else
      match SendMail(Subject(c), Body(c), mailTo, c.email, cfg, delivery)
      case Sent(msg) => Ok(msg)
      case SendError(reason) => Err(HttpError(500, reason))
  }

  // ---------------------------------------------------------------- properties

  /** A delivered mail comes from the submitter, takes replies back to the
      submitter, goes to the configured inbox, and carries the given subject
      (the default when none or an empty one is given) and the body. */
  lemma DeliveredMail(c: ContactIn, mailTo: string, cfg: SmtpConfig)
    requires MeetsMinLengths(c) && cfg.port.Port? && HasCredentials(cfg)
    requires HeaderSafe(c.email) && HeaderSafe(mailTo) && HeaderSafe(Subject(c))
    ensures var r := ContactSend(c, mailTo, cfg, Delivered);
      && r.Ok?
      && r.value.from == c.email && r.value.replyTo == c.email && r.value.to == mailTo
      && r.value.body == JoinLines(BodyLines(c))
      && r.value.subject == (if c.subject.Some? && c.subject.value != "" then c.subject.value else DefaultSubject)
  {
    BodyIsItsLines(c);
  }

  /** Missing credentials stop the send before the session is used: the
      answer is 500 "SMTP credentials are not configured" whatever the
      session would have done. */
  lemma CredentialGate(c: ContactIn, mailTo: string, cfg: SmtpConfig, delivery: Delivery)
    requires MeetsMinLengths(c) && cfg.port.Port? && !HasCredentials(cfg)
    ensures ContactSend(c, mailTo, cfg, delivery) == Err(HttpError(500, NoCredentials))
  {
  }

  /** A subject with a line break before its end makes setting the header
      raise: the answer is 500 with that error's text, whatever the session
      would have done. */
  lemma SubjectLineBreakIs500(c: ContactIn, mailTo: string, cfg: SmtpConfig, delivery: Delivery)
    requires MeetsMinLengths(c) && cfg.port.Port? && HasCredentials(cfg)
    requires !HeaderSafe(Subject(c))
    ensures ContactSend(c, mailTo, cfg, delivery) == Err(HttpError(500, HeaderLineBreak))
  {
  }

  /** The subject "Hi\nthere" is refused by the header check; "Hi\n" and
      "Hi\r\n" are not. */
  lemma SubjectLineBreakExamples()
    ensures !HeaderSafe("Hi\nthere")
    ensures HeaderSafe("Hi\n") && HeaderSafe("Hi\r\n")
  {
    BreakInside("Hi\nthere", 2);
    var v := "Hi\r\n";
    forall i | 0 <= i < |v| && IsLineBreak(v[i])
      ensures EndsValue(v, i)
    {
      assert i != 0 && i != 1;
    }
    var w := "Hi\n";
    forall i | 0 <= i < |w| && IsLineBreak(w[i]) ensures EndsValue(w, i) {
      assert i != 0 && i != 1;
    }
  }

  /** A line break that does not end the value makes it unsafe. */
  lemma BreakInside(v: string, k: int)
    requires 0 <= k < |v| && IsLineBreak(v[k])
    requires !EndsValue(v, k)
    ensures !HeaderSafe(v)
  {
  }

  /** A failed session becomes a 500 carrying the session's error text. */
  lemma DeliveryFailureIs500(c: ContactIn, mailTo: string, cfg: SmtpConfig, reason: string)
    requires MeetsMinLengths(c) && cfg.port.Port? && HasCredentials(cfg)
    requires HeaderSafe(c.email) && HeaderSafe(mailTo) && HeaderSafe(Subject(c))
    ensures ContactSend(c, mailTo, cfg, DeliveryFailed(reason)) == Err(HttpError(500, reason))
  {
  }

  /** A phone or product that is omitted or empty shows as "-" in its line. */
  lemma OmittedFieldsShowDash(c: ContactIn)
    requires c.phone.None? || c.phone.value == ""
    requires c.product.None? || c.product.value == ""
    ensures BodyLines(c)[2] == "Phone: -" && BodyLines(c)[3] == "Product: -"
  {
  }
}
