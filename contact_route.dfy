/** The contact endpoint (src/app/api/contact/route.ts): it checks the required fields, builds the
    notification e-mail and answers with a status. The e-mail service is a parameter: whether
    sending throws. */
module ContactRoute {
  import opened Wrappers
  import opened Text
  import ContactForm

  /** The JSON fields read; `None` stands for a missing field. */
  datatype Body = Body(name: Option<string>, email: Option<string>, subject: Option<string>, message: Option<string>)

  datatype Email = Email(from: string, to: seq<string>, replyTo: string, subject: string, html: string)

  datatype ResponseBody = Sent | Failure(error: string)

  datatype Response = Response(status: int, body: ResponseBody)

  const From: string := "EŽ Stilius <noreply@ezstilius.lt>"
  const To: string := "info@ezstilius.lt"
  const MissingFields: string := "Missing required fields"
  const SendFailed: string := "Failed to send email"

  /** JavaScript truthiness of a string field. */
  predicate Truthy(field: Option<string>) {
    field.Some? && field.value != ""
  }

  /** `field || fallback`. */
  function OrElse(field: Option<string>, fallback: string): (r: string)
    ensures Truthy(field) ==> r == field.value
    ensures !Truthy(field) ==> r == fallback
  {
    if Truthy(field) then field.value else fallback
  }

  /** The subject line: the site's tag, the subject or "Nauja žinutė", a colon and the name. */
  function SubjectLine(name: string, subject: Option<string>): string {
    "[EŽ Stilius] " + OrElse(subject, "Nauja žinutė") + ": " + name
  }

  /** The message as it appears in the e-mail: every newline becomes a line break tag. */
  function MessageHtml(message: string): (html: string)
    ensures '\n' !in html
    ensures html == Join(Split(message, "\n"), "<br>")
  {
    ReplaceAllRemoves(message, '\n', "<br>");
    ReplaceAllIsSplitJoin(message, '\n', "<br>");
    ReplaceAll(message, '\n', "<br>")
  }

  /** The fixed text of the HTML body around its four values. */
  const BodyTemplate: seq<string> := [
    "\n        <h2>Nauja žinutė iš svetainės</h2>\n        <p><strong>Vardas:</strong> ",
    "</p>\n        <p><strong>El. paštas:</strong> ",
    "</p>\n        <p><strong>Tema:</strong> ",
    "</p>\n        <p><strong>Žinutė:</strong></p>\n        <p>",
    "</p>\n      "
  ]

  /** A template literal: the fixed pieces with the values placed between them. */
  function Fill(pieces: seq<string>, values: seq<string>): string
    requires |pieces| == |values| + 1
  {
    if values == [] then pieces[0]
    else pieces[0] + values[0] + Fill(pieces[1..], values[1..])
  }

  /** The HTML body: name, e-mail, the subject or "Nenurodyta", and the message. */
  function HtmlBody(name: string, email: string, subject: Option<string>, message: string): string {
    Fill(BodyTemplate, [name, email, OrElse(subject, "Nenurodyta"), MessageHtml(message)])
  }

  /** The e-mail sent for a body whose required fields are present. */
  function Compose(name: string, email: string, subject: Option<string>, message: string): (mail: Email)
    ensures mail.replyTo == email && mail.to == [To] && mail.from == From
    ensures mail.subject == SubjectLine(name, subject)
    ensures mail.html == HtmlBody(name, email, subject, message)
  {
    Email(From, [To], email, SubjectLine(name, subject), HtmlBody(name, email, subject, message))
  }

  /** `POST`: `parsed` is the request's JSON (an error when it cannot be read) and `sendThrows`
      says whether the e-mail service fails. The result is the response and the e-mail handed to
      the service, if any. */
  function Post(parsed: Result<Body, string>, sendThrows: bool): (r: (Response, Option<Email>))
    ensures parsed.Err? ==> r == (Response(500, Failure(SendFailed)), None)
    ensures parsed.Ok? && !(Truthy(parsed.value.name) && Truthy(parsed.value.email) && Truthy(parsed.value.message))
        ==> r == (Response(400, Failure(MissingFields)), None)
    ensures r.1.Some? <==> parsed.Ok? && Truthy(parsed.value.name) && Truthy(parsed.value.email) && Truthy(parsed.value.message)
    ensures r.1.Some? ==> r.1.value == Compose(parsed.value.name.value, parsed.value.email.value,
                                               parsed.value.subject, parsed.value.message.value)
    ensures r.1.Some? ==> r.0 == (if sendThrows then Response(500, Failure(SendFailed)) else Response(200, Sent))
  {
    match parsed
    case Err(_) => (Response(500, Failure(SendFailed)), None)
    case Ok(body) =>
      if !Truthy(body.name) || !Truthy(body.email) || !Truthy(body.message) then
        (Response(400, Failure(MissingFields)), None)
      else
        var mail := Compose(body.name.value, body.email.value, body.subject, body.message.value);
        (if sendThrows then Response(500, Failure(SendFailed)) else Response(200, Sent), Some(mail))
  }

  // ---------------------------------------------------------------------------------------------
  // Lemmas

  /** The message section of the e-mail holds no newline, and a one-line message is copied
      unchanged. */
  lemma MessageLinesKept(message: string)
    ensures '\n' !in MessageHtml(message)
    ensures '\n' !in message ==> MessageHtml(message) == message
  {
    if '\n' !in message {
      ContainsChar(message, '\n');
      SplitWithoutSeparator(message, "\n");
    }
  }

  /** What the form sends after passing its own validation is never refused by the required-field
      check: non-blank text is truthy. */
  lemma ValidFormIsAccepted(data: ContactForm.FormData)
    requires !ContactForm.HasErrors(ContactForm.Errors(data))
    ensures var body := Body(Some(data.name), Some(data.email), Some(data.subject), Some(data.message));
      Post(Ok(body), false).0 == Response(200, Sent)
  {
    assert data.name != "" by { assert !Blank(data.name); }
    assert data.email != "" by { assert !Blank(data.email); }
    assert data.message != "" by { assert !Blank(data.message); }
  }

  /** The form's empty subject reaches the e-mail as "Nauja žinutė" in the subject line and
      "Nenurodyta" in the body. */
  lemma EmptySubjectFallbacks(name: string, email: string, message: string)
    ensures Compose(name, email, Some(""), message).subject == "[EŽ Stilius] Nauja žinutė: " + name
    ensures Compose(name, email, Some(""), message).html == HtmlBody(name, email, None, message)
  {
  }
}
