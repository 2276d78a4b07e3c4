/** The magic-link email: the link, the subject and greeting chosen for a
    signup or a login, the two-part message, and the SMTP conversation that
    sends it. */
module Email {
  import opened Outcomes
  import opened Text
  import opened Http
  import opened UrlEncoding

  /** `APP_URL` when the deployment does not set one. */
  const DefaultAppUrl := "http://localhost:4010"
  const VerifyEndpoint := "/api/auth/verify"

  /** The link the email carries. */
  function MagicLink(appUrl: string, token: string): string {
    appUrl + VerifyEndpoint + "?token=" + token
  }

  /** For a URL-safe token (letters, digits, `-`, `_`, as the token generator
      produces) the hand-built link is exactly the endpoint with the encoded
      query `token=<token>`, and that query reads back as the token. */
  lemma MagicLinkCarriesToken(appUrl: string, token: string)
    requires forall i :: 0 <= i < |token| ==> Unreserved(token[i])
    ensures MagicLink(appUrl, token) == appUrl + VerifyEndpoint + "?" + Urlencode([("token", token)])
    ensures ParseQuery(Urlencode([("token", token)])) == [("token", token)]
  {
    TokenQuery(token);
    assert Ascii(token) && Ascii("token");
    ParseUrlencode([("token", token)]);
  }

  /** The encoded query of a URL-safe token is `token=` and the token itself. */
  lemma TokenQuery(token: string)
    requires forall i :: 0 <= i < |token| ==> Unreserved(token[i])
    ensures Urlencode([("token", token)]) == "token=" + token
  {
    assert forall i :: 0 <= i < |"token"| ==> Unreserved("token"[i]);
    QuotePlusUnreserved("token");
    QuotePlusUnreserved(token);
    var pieces := seq(1, i requires 0 <= i < 1 => EncodePair([("token", token)][i].0, [("token", token)][i].1));
    assert pieces == [EncodePair("token", token)];
    assert Join(pieces, "&") == EncodePair("token", token);
  }

  function Subject(isSignup: bool): string {
    if isSignup then "Complete your Orizon signup" else "Log in to Orizon"
  }

  function ActionText(isSignup: bool): string {
    if isSignup then "complete your signup" else "log in"
  }

  /** The greeting names the user only in a signup email with a non-empty name. */
  function Greeting(isSignup: bool, name: Option<string>): (g: string)
    ensures isSignup && Present(name) ==> g == "Hi " + name.value + ","
    ensures !(isSignup && Present(name)) ==> g == "Hi,"
  {
    "Hi" + (if isSignup && Present(name) then " " + name.value else "") + ","
  }

  /** A login email greets everybody the same way, whatever name is passed. */
  lemma LoginGreetingIsAnonymous(name1: Option<string>, name2: Option<string>)
    ensures Greeting(false, name1) == Greeting(false, name2) == "Hi,"
  {
  }

  /** The characters of `s` up to its first whitespace. */
  function TakeWord(s: string): string {
    if s == [] || IsSpace(s[0]) then [] else [s[0]] + TakeWord(s[1..])
  }

  /** `s.split()[0]` (empty for a blank string, where Python raises instead). */
  function FirstWord(s: string): string {
    TakeWord(StripLeft(s))
  }

  /** The button label as the HTML body builds it: the subject's first word,
      then "to Orizon" for a login or "Signup" for a signup. */
  function ButtonLabelAsWritten(isSignup: bool): string {
    FirstWord(Subject(isSignup)) + " " + (if !isSignup then "to Orizon" else "Signup")
  }

  /** The label as written reads "Log to Orizon" in every login email: the
      first word of "Log in to Orizon" drops the "in". */
  lemma LoginButtonDropsWord()
    ensures ButtonLabelAsWritten(false) == "Log" + " " + "to Orizon"
    ensures ButtonLabelAsWritten(false) != Subject(false)
    ensures ButtonLabelAsWritten(true) == "Complete" + " " + "Signup"
  {
    SubjectFirstWords();
  }

  /** The label the code puts on the button, evaluated: proved equal to the
      first-word formula by `SentButtonLabelIsAsWritten`. */
  function SentButtonLabel(isSignup: bool): string {
    if isSignup then "Complete" + " " + "Signup" else "Log" + " " + "to Orizon"
  }

  /** The label every sent email carries is the label as written. */
  lemma SentButtonLabelIsAsWritten(isSignup: bool)
    ensures SentButtonLabel(isSignup) == ButtonLabelAsWritten(isSignup)
  {
    LoginButtonDropsWord();
    if isSignup {
      assert SentButtonLabel(true) == "Complete" + " " + "Signup";
    } else {
      assert SentButtonLabel(false) == "Log" + " " + "to Orizon";
    }
  }

  lemma SubjectFirstWords()
    ensures FirstWord(Subject(false)) == "Log"
    ensures FirstWord(Subject(true)) == "Complete"
  {
    LoginSubjectFirstWord();
    SignupSubjectFirstWord();
  }

  lemma LoginSubjectFirstWord()
    ensures FirstWord(Subject(false)) == "Log"
  {
    var log := "Log";
    assert forall i :: 0 <= i < |log| ==> !IsSpace(log[i]);
    assert Subject(false) == log + " " + "in to Orizon";
    FirstWordBeforeSpace(log, "in to Orizon");
  }

  lemma SignupSubjectFirstWord()
    ensures FirstWord(Subject(true)) == "Complete"
  {
    var complete := "Complete";
    assert forall i :: 0 <= i < |complete| ==> !IsSpace(complete[i]);
    assert Subject(true) == complete + " " + "your Orizon signup";
    FirstWordBeforeSpace(complete, "your Orizon signup");
  }

  /** A leading word without whitespace, then a space: `split()[0]` is that word. */
  lemma FirstWordBeforeSpace(word: string, rest: string)
    requires word != [] && forall i :: 0 <= i < |word| ==> !IsSpace(word[i])
    ensures FirstWord(word + " " + rest) == word
  {
    assert StripLeft(word + " " + rest) == word + " " + rest;
    TakeWordBeforeSpace(word, rest);
  }

  lemma {:induction false} TakeWordBeforeSpace(word: string, rest: string)
    requires forall i :: 0 <= i < |word| ==> !IsSpace(word[i])
    ensures TakeWord(word + " " + rest) == word
    decreases |word|
  {
    if word == [] {
      assert (word + " " + rest)[0] == ' ';
    } else {
      TakeWordBeforeSpace(word[1..], rest);
      assert (word + " " + rest)[1..] == word[1..] + " " + rest;
    }
  }

  /** The button label as evidently intended: the login button repeats the
      login subject, the signup button reads "Complete Signup". */
  function ButtonLabel(isSignup: bool): (caption: string)
    ensures !isSignup ==> caption == Subject(false)
  {
    if isSignup then "Complete" + " " + "Signup" else "Log in to Orizon"
  }

  /** The corrected label differs from the label as written only for a login:
      there it carries the whole subject instead of "Log to Orizon". */
  lemma ButtonLabelCorrected()
    ensures ButtonLabel(true) == ButtonLabelAsWritten(true)
    ensures ButtonLabel(false) == Subject(false) != ButtonLabelAsWritten(false)
  {
    LoginButtonDropsWord();
  }

  /** The fixed sentences of the two bodies. */
  const TextPrompt := "\n\nClick the link below to "
  const TextClosing := "\n\nThis link expires in 15 minutes.\nIf you didn't request this, you can safely ignore this email.\n\n- Orizon\n"
  const HtmlPrompt := "<br>Click the button below to "
  const HtmlClosing := "<p>This link expires in 15 minutes.<br>If you didn't request this, you can safely ignore this email.</p>"
    + "<p>If the button doesn't work, copy and paste this link:<br>"

  /** The plain-text body. */
  function TextBody(greeting: string, actionText: string, link: string): string {
    "\n" + greeting + TextPrompt + actionText + ":\n\n" + link + TextClosing
  }

  /** The HTML body, without its styling: the greeting and action, the button
      to the link, the expiry note, and the link again as text. */
  function HtmlBody(greeting: string, actionText: string, link: string, caption: string): string {
    "<p>" + greeting + HtmlPrompt + actionText + ".</p>"
    + "<a href=\"" + link + "\">" + caption + "</a>"
    + HtmlClosing + "<a href=\"" + link + "\">" + link + "</a></p>"
  }

  /** Both bodies carry the link. */
  lemma BodiesCarryLink(greeting: string, actionText: string, link: string, caption: string)
    ensures Contains(TextBody(greeting, actionText, link), link)
    ensures Contains(HtmlBody(greeting, actionText, link, caption), link)
  {
    var textHead := "\n" + greeting + TextPrompt + actionText + ":\n\n";
    assert TextBody(greeting, actionText, link) == textHead + link + TextClosing;
    ContainsMiddle(textHead, link, TextClosing);
    var htmlHead := "<p>" + greeting + HtmlPrompt + actionText + ".</p>"
      + "<a href=\"" + link + "\">" + caption + "</a>"
      + HtmlClosing + "<a href=\"" + link + "\">";
    assert HtmlBody(greeting, actionText, link, caption) == htmlHead + link + "</a></p>";
    ContainsMiddle(htmlHead, link, "</a></p>");
  }

  /** One MIME part: its text and its subtype. */
  datatype Part = Part(body: string, subtype: string)

  /** The content of a message as it is sent. */
  datatype MessageData = MessageData(subject: string, from: string, to: string, parts: seq<Part>)

  /** The SMTP settings (`SMTP_HOST`, `SMTP_PORT`, `SMTP_USER`, `SMTP_PASSWORD`,
      `SMTP_FROM_EMAIL`, `SMTP_FROM_NAME`, `SMTP_USE_TLS`). */
  datatype SmtpConfig = SmtpConfig(host: string, port: int, user: string, password: string,
                                   fromEmail: string, fromName: string, useTls: bool)

  function FromHeader(config: SmtpConfig): string {
    config.fromName + " <" + config.fromEmail + ">"
  }

  /** The parts a message gets: a plain part only when there is a non-empty
      text body, and the HTML part always, last. */
  function Parts(htmlBody: string, textBody: Option<string>): (ps: seq<Part>)
    ensures |ps| == (if Present(textBody) then 2 else 1)
    ensures ps[|ps| - 1] == Part(htmlBody, "html")
    ensures Present(textBody) ==> ps[0] == Part(textBody.value, "plain")
  {
    (if Present(textBody) then [Part(textBody.value, "plain")] else []) + [Part(htmlBody, "html")]
  }

  /** A `multipart/alternative` message under construction. */
  class MimeMessage {
    const subject: string
    const from: string
    const to: string
    var parts: seq<Part>

    constructor (subject: string, from: string, to: string)
      ensures this.subject == subject && this.from == from && this.to == to && parts == []
    {
      this.subject, this.from, this.to, parts := subject, from, to, [];
    }

    method Attach(part: Part)
      modifies this
      ensures parts == old(parts) + [part]
    {
      parts := parts + [part];
    }

    function Data(): MessageData
      reads this
    {
      MessageData(subject, from, to, parts)
    }
  }

  /** `_create_message` */
  method CreateMessage(config: SmtpConfig, to: string, subject: string, htmlBody: string, textBody: Option<string>)
    returns (m: MimeMessage)
    ensures fresh(m)
    ensures m.Data() == MessageData(subject, FromHeader(config), to, Parts(htmlBody, textBody))
  {
    m := new MimeMessage(subject, FromHeader(config), to);
    if Present(textBody) {
      m.Attach(Part(textBody.value, "plain"));
    }
    m.Attach(Part(htmlBody, "html"));
  }

  /** What `sendmail` hands to the server. */
  datatype Envelope = Envelope(from: string, to: string, message: MessageData)

  /** One step of the SMTP conversation. */
  datatype SmtpStep =
    | Connect(host: string, port: int)
    | StartTls
    | Login(user: string, password: string)
    | SendMail(envelope: Envelope)
    | Quit

  /** The steps `send_email` takes: connect, STARTTLS when configured, login
      when both user and password are non-empty, send, quit. */
  function Plan(config: SmtpConfig, envelope: Envelope): (steps: seq<SmtpStep>)
    ensures |steps| >= 3 && steps[0] == Connect(config.host, config.port)
    ensures steps[|steps| - 2] == SendMail(envelope) && steps[|steps| - 1] == Quit
    ensures StartTls in steps <==> config.useTls
    ensures Login(config.user, config.password) in steps <==> config.user != "" && config.password != ""
    ensures forall i :: 0 <= i < |steps| - 2 ==> !steps[i].SendMail?
  {
    [Connect(config.host, config.port)]
    + (if config.useTls then [StartTls] else [])
    + (if config.user != "" && config.password != "" then [Login(config.user, config.password)] else [])
    + [SendMail(envelope), Quit]
  }

  /** The SMTP server: which steps it refuses (raising in the client), the
      steps it has seen and the mail it has accepted. */
  class SmtpServer {
    const refuses: SmtpStep -> bool
    var transcript: seq<SmtpStep>
    var delivered: seq<Envelope>

    constructor (refuses: SmtpStep -> bool)
      ensures this.refuses == refuses && transcript == [] && delivered == []
    {
      this.refuses, transcript, delivered := refuses, [], [];
    }

    method Perform(step: SmtpStep) returns (ok: bool)
      modifies this
      ensures ok == !refuses(step)
      ensures transcript == old(transcript) + [step]
      ensures delivered == old(delivered) + (if ok && step.SendMail? then [step.envelope] else [])
    {
      ok := !refuses(step);
      transcript := transcript + [step];
      if ok && step.SendMail? {
        delivered := delivered + [step.envelope];
      }
    }
  }

  /** The index of the first refused step, `|steps|` when none is refused. */
  function FirstRefused(steps: seq<SmtpStep>, refuses: SmtpStep -> bool): (k: nat)
    ensures k <= |steps|
    ensures forall j :: 0 <= j < k ==> !refuses(steps[j])
    ensures k < |steps| ==> refuses(steps[k])
  {
    if steps == [] then 0 else if refuses(steps[0]) then 0 else 1 + FirstRefused(steps[1..], refuses)
  }

  /** The mail sent by the accepted `sendmail` steps among `steps`. */
  function Deliveries(steps: seq<SmtpStep>): seq<Envelope> {
    if steps == [] then []
    else Deliveries(steps[..|steps| - 1])
         + (if steps[|steps| - 1].SendMail? then [steps[|steps| - 1].envelope] else [])
  }

  /** The envelope is delivered exactly when every step up to and including
      `sendmail` went through: a refused QUIT still leaves it delivered. */
  lemma PlanDeliveries(config: SmtpConfig, envelope: Envelope, k: nat)
    requires k <= |Plan(config, envelope)|
    ensures var plan := Plan(config, envelope);
      Deliveries(plan[..k]) == (if k >= |plan| - 1 then [envelope] else [])
  {
    SendMailSecondToLast(Plan(config, envelope), envelope, k);
  }

  /** The prefix argument behind `PlanDeliveries`, for any steps whose only
      `sendmail` is the second-to-last one. */
  lemma {:induction false} SendMailSecondToLast(steps: seq<SmtpStep>, envelope: Envelope, k: nat)
    requires |steps| >= 2 && k <= |steps|
    requires steps[|steps| - 2] == SendMail(envelope) && !steps[|steps| - 1].SendMail?
    requires forall i :: 0 <= i < |steps| - 2 ==> !steps[i].SendMail?
    ensures Deliveries(steps[..k]) == (if k >= |steps| - 1 then [envelope] else [])
    decreases k
  {
    if k > 0 {
      SendMailSecondToLast(steps, envelope, k - 1);
      assert steps[..k][..k - 1] == steps[..k - 1];
      assert steps[..k][k - 1] == steps[k - 1];
    }
  }

  /** What `send_email` reports, the steps the server sees and the mail it accepts. */
  datatype Attempt = Attempt(sent: bool, transcript: seq<SmtpStep>, delivered: seq<Envelope>)

  function AttemptOf(config: SmtpConfig, envelope: Envelope, refuses: SmtpStep -> bool): Attempt {
    var plan := Plan(config, envelope);
    var k := FirstRefused(plan, refuses);
    Attempt(k == |plan|, plan[..if k < |plan| then k + 1 else k], if k >= |plan| - 1 then [envelope] else [])
  }

  /** Runs the steps in order against the server, stopping at the first one
      it refuses; true exactly when none was refused. */
  method Converse(server: SmtpServer, plan: seq<SmtpStep>) returns (sent: bool)
    modifies server
    ensures var k := FirstRefused(plan, server.refuses);
      && sent == (k == |plan|)
      && server.transcript == old(server.transcript) + plan[..if k < |plan| then k + 1 else k]
      && server.delivered == old(server.delivered) + Deliveries(plan[..k])
  {
    ghost var k := FirstRefused(plan, server.refuses);
    var i := 0;
    while i < |plan|
      invariant 0 <= i <= k
      invariant server.transcript == old(server.transcript) + plan[..i]
      invariant server.delivered == old(server.delivered) + Deliveries(plan[..i])
    {
      var ok := server.Perform(plan[i]);
      if !ok {
        return false;
      }
      assert plan[..i + 1][..i] == plan[..i];
      i := i + 1;
    }
    assert plan[..i] == plan;
    sent := true;
  }

  /** `send_email`: builds the message, then holds the conversation. */
  method SendEmail(config: SmtpConfig, server: SmtpServer, to: string, subject: string,
                   htmlBody: string, textBody: Option<string>)
    returns (sent: bool)
    modifies server
    ensures var a := AttemptOf(config, Envelope(config.fromEmail, to, MessageData(subject, FromHeader(config), to, Parts(htmlBody, textBody))), server.refuses);
      && sent == a.sent
      && server.transcript == old(server.transcript) + a.transcript
      && server.delivered == old(server.delivered) + a.delivered
  {
    var message := CreateMessage(config, to, subject, htmlBody, textBody);
    var envelope := Envelope(config.fromEmail, to, message.Data());
    var plan := Plan(config, envelope);
    PlanDeliveries(config, envelope, FirstRefused(plan, server.refuses));
    sent := Converse(server, plan);
  }

  /** The envelope of a magic-link email whose button reads `caption`. */
  function MagicLinkEnvelopeWith(config: SmtpConfig, appUrl: string, to: string, token: string,
                                 name: Option<string>, isSignup: bool, caption: string): Envelope {
    var link := MagicLink(appUrl, token);
    var greeting := Greeting(isSignup, name);
    var text := TextBody(greeting, ActionText(isSignup), link);
    var html := HtmlBody(greeting, ActionText(isSignup), link, caption);
    Envelope(config.fromEmail, to, MessageData(Subject(isSignup), FromHeader(config), to, Parts(html, Some(text))))
  }

  /** The envelope of the magic-link email as it is sent, with the button
      label as written ("Log to Orizon" in a login email). */
  function MagicLinkEnvelope(config: SmtpConfig, appUrl: string, to: string, token: string,
                             name: Option<string>, isSignup: bool): Envelope {
    MagicLinkEnvelopeWith(config, appUrl, to, token, name, isSignup, SentButtonLabel(isSignup))
  }

  /** The envelope with the corrected button label. */
  function CorrectedMagicLinkEnvelope(config: SmtpConfig, appUrl: string, to: string, token: string,
                                      name: Option<string>, isSignup: bool): Envelope {
    MagicLinkEnvelopeWith(config, appUrl, to, token, name, isSignup, ButtonLabel(isSignup))
  }

  /** The HTML body grows with the button caption and nothing else varies. */
  lemma HtmlBodyLength(greeting: string, actionText: string, link: string, caption: string)
    ensures |HtmlBody(greeting, actionText, link, caption)|
         == |HtmlBody(greeting, actionText, link, [])| + |caption|
  {
  }

  /** The correction changes the login email and nothing else: a signup email
      is the same either way; a login email keeps its subject, addresses and
      plain-text part and differs in its HTML part, which is three characters
      longer with the corrected label. */
  lemma CorrectedMailDiffersOnlyInLoginButton(config: SmtpConfig, appUrl: string, to: string, token: string,
                                              name: Option<string>)
    ensures CorrectedMagicLinkEnvelope(config, appUrl, to, token, name, true)
         == MagicLinkEnvelope(config, appUrl, to, token, name, true)
    ensures var sent := MagicLinkEnvelope(config, appUrl, to, token, name, false);
      var fixed := CorrectedMagicLinkEnvelope(config, appUrl, to, token, name, false);
      && fixed.from == sent.from && fixed.to == sent.to
      && fixed.message.subject == sent.message.subject && fixed.message.to == sent.message.to
      && |fixed.message.parts| == |sent.message.parts| == 2
      && fixed.message.parts[0] == sent.message.parts[0]
      && |fixed.message.parts[1].body| == |sent.message.parts[1].body| + 3
  {
    ButtonLabelCorrected();
    SentButtonLabelIsAsWritten(true);
    SentButtonLabelIsAsWritten(false);
    var link := MagicLink(appUrl, token);
    var greeting := Greeting(false, name);
    HtmlBodyLength(greeting, ActionText(false), link, ButtonLabel(false));
    HtmlBodyLength(greeting, ActionText(false), link, SentButtonLabel(false));
    assert Present(Some(TextBody(greeting, ActionText(false), link)));
  }

  /** The magic-link email has the subject of its kind and two parts, plain
      text then HTML, and both carry the link. */
  lemma MagicLinkMessage(config: SmtpConfig, appUrl: string, to: string, token: string,
                         name: Option<string>, isSignup: bool)
    ensures var m := MagicLinkEnvelope(config, appUrl, to, token, name, isSignup).message;
      && m.subject == Subject(isSignup) && m.to == to
      && |m.parts| == 2 && m.parts[0].subtype == "plain" && m.parts[1].subtype == "html"
      && Contains(m.parts[0].body, MagicLink(appUrl, token))
      && Contains(m.parts[1].body, MagicLink(appUrl, token))
  {
    var greeting := Greeting(isSignup, name);
    BodiesCarryLink(greeting, ActionText(isSignup), MagicLink(appUrl, token), SentButtonLabel(isSignup));
    assert Present(Some(TextBody(greeting, ActionText(isSignup), MagicLink(appUrl, token))));
  }

  /** `send_magic_link_email` */
  method SendMagicLinkEmail(config: SmtpConfig, appUrl: string, server: SmtpServer, to: string,
                            token: string, name: Option<string>, isSignup: bool)
    returns (sent: bool)
    modifies server
    ensures var a := AttemptOf(config, MagicLinkEnvelope(config, appUrl, to, token, name, isSignup), server.refuses);
      && sent == a.sent
      && server.transcript == old(server.transcript) + a.transcript
      && server.delivered == old(server.delivered) + a.delivered
  {
    var link := MagicLink(appUrl, token);
    var greeting := Greeting(isSignup, name);
    var text := TextBody(greeting, ActionText(isSignup), link);
    var html := HtmlBody(greeting, ActionText(isSignup), link, SentButtonLabel(isSignup));
    sent := SendEmail(config, server, to, Subject(isSignup), html, Some(text));
  }
}
