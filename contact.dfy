/**
 * The contact-form API route: it renders the inquiry, skips sending when the relay key is not
 * configured, and otherwise relays the inquiry and normalises the relay's answer.
 */
module Contact {
  import opened Wrappers
  import opened Strings
  import opened Validation
  import Mail

  /** The members the route reads from the JSON body; absent members are `None`. */
  datatype ContactForm = ContactForm(
    name: Option<string>, email: Option<string>, company: Option<string>, role: Option<string>,
    projectType: Option<string>, timeline: Option<string>, message: Option<string>)

  /** `RESEND_API_KEY`, `EMAIL_FROM` and `EMAIL_TO` from the environment. */
  datatype ContactEnv = ContactEnv(apiKey: Option<string>, emailFrom: Option<string>, emailTo: Option<string>)

  /** The rendered fields of the inquiry (the template's markup is not modelled). */
  datatype Inquiry = Inquiry(
    name: string, email: string, company: string, role: string, projectType: string, timeline: string, message: string)

  /** The route's answers: 200 with an optional relay id, 200 in development, or 500. */
  datatype ContactResponse = Accepted(emailId: Option<string>) | DevReceived | Failed

  /** What the route does with a request. */
  datatype Plan = Reject | DevAccept | Dispatch(email: Mail.Email)

  const PlaceholderKey := "your_resend_api_key_here"
  const DefaultFrom := "onboarding@resend.dev"
  const DefaultTo := "hello@twopelicans.ai"

  function Status(r: ContactResponse): int {
    if r.Failed? then 500 else 200
  }

  /** `${x}` in a template literal: an undefined member renders as `undefined`. */
  function Interpolate(o: Option<string>): string {
    if o.Some? then o.value else "undefined"
  }

  /** `${x || "Not specified"}` */
  function OrNotSpecified(o: Option<string>): (r: string)
    ensures !Present(o) ==> r == "Not specified"
    ensures Present(o) ==> r == o.value
  {
    if Present(o) then o.value else "Not specified"
  }

  /** `x || fallback` for an environment variable. */
  function OrDefault(o: Option<string>, fallback: string): (r: string)
    ensures Present(o) ==> r == o.value
    ensures !Present(o) ==> r == fallback
  {
    if Present(o) then o.value else fallback
  }

  /**
   * The e-mail content; `message.replace(...)` on an undefined message throws, so a missing
   * message yields no content.
   */
  function Render(form: ContactForm): (r: Option<Inquiry>)
    ensures r.Some? <==> form.message.Some?
    ensures r.Some? ==> && r.value.message == ReplaceNewlines(form.message.value)
                        && r.value.role == OrNotSpecified(form.role)
                        && r.value.timeline == OrNotSpecified(form.timeline)
                        && '\n' !in r.value.message
  {
    if form.message.None? then None
    else Some(Inquiry(
      Interpolate(form.name), Interpolate(form.email), Interpolate(form.company), OrNotSpecified(form.role),
      Interpolate(form.projectType), OrNotSpecified(form.timeline), ReplaceNewlines(form.message.value)))
  }

  /** The relay key is unset, empty or still the placeholder. */
  predicate IsDevMode(env: ContactEnv) {
    !Present(env.apiKey) || env.apiKey == Some(PlaceholderKey)
  }

  /** Only a configured key other than the placeholder leaves development mode. */
  lemma DevModeKeys(env: ContactEnv)
    ensures IsDevMode(env) <==> env.apiKey.None? || env.apiKey.value == [] || env.apiKey.value == PlaceholderKey
  {
  }

  /** The relay request for an inquiry. */
  function InquiryEmail(env: ContactEnv, form: ContactForm, body: Inquiry): (e: Mail.Email)
    ensures e.subject == "New Inquiry from " + Interpolate(form.name) + " at " + Interpolate(form.company)
    ensures e.replyTo == form.email
    ensures e.from == Some(OrDefault(env.emailFrom, DefaultFrom)) && e.to == Some(OrDefault(env.emailTo, DefaultTo))
  {
    Mail.Email(Some(OrDefault(env.emailFrom, DefaultFrom)), Some(OrDefault(env.emailTo, DefaultTo)),
               "New Inquiry from " + Interpolate(form.name) + " at " + Interpolate(form.company), form.email, body.message)
  }

  /** The content is rendered before the development check, so a missing message fails in every mode. */
  function PlanFor(form: ContactForm, env: ContactEnv): (p: Plan)
    ensures p.Reject? <==> form.message.None?
    ensures p.DevAccept? <==> form.message.Some? && IsDevMode(env)
    ensures p.Dispatch? ==> p.email == InquiryEmail(env, form, Render(form).value)
  {
    var body := Render(form);
    if body.None? then Reject
    else if IsDevMode(env) then DevAccept
    else Dispatch(InquiryEmail(env, form, body.value))
  }

  /** The ordered checks on the relay's answer: nested data, then error, then a top-level id. */
  function Normalize(answer: Mail.RelayReply): (r: ContactResponse)
    ensures r.Failed? <==> !answer.Reply? || (answer.data.None? && answer.error.Some?)
    ensures answer.Reply? && answer.data.Some? ==> r == Accepted(answer.data.value.id)
    ensures answer.Reply? && answer.data.None? && answer.error.None? ==>
              r == Accepted(if answer.id.Some? then answer.id.value else None)
  {
    match answer
    case Thrown => Failed
    case NoReply => Failed
    case Reply(data, error, id) =>
      if data.Some? then Accepted(data.value.id)
      else if error.Some? then Failed
      else if id.Some? then Accepted(id.value)
      else Accepted(None)
  }

  method Post(mailer: Mail.Mailer, env: ContactEnv, form: ContactForm, answer: Mail.RelayReply) returns (r: ContactResponse)
    modifies mailer
    ensures PlanFor(form, env).Reject? ==> r == Failed && mailer.outbox == old(mailer.outbox)
    ensures PlanFor(form, env).DevAccept? ==> r == DevReceived && mailer.outbox == old(mailer.outbox)
    ensures PlanFor(form, env).Dispatch? ==>
              mailer.outbox == old(mailer.outbox) + [PlanFor(form, env).email] && r == Normalize(answer)
  {
    var body := Render(form);
    if body.None? {
      return Failed;
    }
    if IsDevMode(env) {
      return DevReceived;
    }
    var reply := mailer.Send(InquiryEmail(env, form, body.value), answer);
    r := Normalize(reply);
  }

  /** The body the provisioning route posts here for a welcome e-mail: only `to`, `subject`, `html`. */
  function FormOfWelcomeBody(to: string, subject: string, html: string): (form: ContactForm)
    ensures form.message.None?
  {
    ContactForm(None, None, None, None, None, None, None)
  }

  /** As written, a welcome e-mail request is refused with a 500 in every configuration and nothing is sent. */
  lemma WelcomeRequestRejected(to: string, subject: string, html: string, env: ContactEnv)
    ensures PlanFor(FormOfWelcomeBody(to, subject, html), env) == Reject
    ensures Status(Failed) == 500
  {
  }
}
