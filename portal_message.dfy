/**
 * The client-portal message API route: POST relays a client's message to the site owners with
 * the client as reply-to address; GET is a stub with no stored messages.
 */
module PortalMessage {
  import opened Wrappers
  import opened Validation
  import Mail

  /** The JSON body of a POST; absent members are `None`. */
  datatype MessageForm = MessageForm(
    subject: Option<string>, message: Option<string>, clientEmail: Option<string>, clientCompany: Option<string>)

  /** `EMAIL_FROM` and `EMAIL_TO` from the environment; unset variables are passed on unset. */
  datatype RelayEnv = RelayEnv(emailFrom: Option<string>, emailTo: Option<string>)

  datatype Body = Problem(error: string) | Delivered(messageId: Option<string>) | Messages(items: seq<string>)

  datatype Response = Response(status: int, body: Body)

  const SubjectPrefix := "[Client Portal] "

  /** The three members the route requires; the company is optional. */
  predicate Complete(form: MessageForm) {
    Present(form.subject) && Present(form.message) && Present(form.clientEmail)
  }

  /** The relay request for a complete form. */
  function Notification(env: RelayEnv, form: MessageForm): (e: Mail.Email)
    requires Complete(form)
    ensures e.subject == SubjectPrefix + form.subject.value
    ensures e.replyTo == form.clientEmail
    ensures e.from == env.emailFrom && e.to == env.emailTo
  {
    Mail.Email(env.emailFrom, env.emailTo, SubjectPrefix + form.subject.value, form.clientEmail, form.message.value)
  }

  /** How the relay's answer becomes the route's response. */
  function SendOutcome(answer: Mail.RelayReply): (r: Response)
    ensures r.status == 200 <==> answer.Reply? && answer.error.None?
    ensures r.status == 200 ==> r.body == Delivered(if answer.data.Some? then answer.data.value.id else None)
    ensures answer.Reply? && answer.error.Some? ==> r == Response(500, Problem("Failed to send message"))
    ensures !answer.Reply? ==> r == Response(500, Problem("Internal server error"))
  {
    match answer
    case Thrown => Response(500, Problem("Internal server error"))
    // Destructuring `{ data, error }` of an undefined answer throws.
    case NoReply => Response(500, Problem("Internal server error"))
    case Reply(data, error, _) =>
      if error.Some? then Response(500, Problem("Failed to send message"))
      else Response(200, Delivered(if data.Some? then data.value.id else None))
  }

  method Post(mailer: Mail.Mailer, env: RelayEnv, form: MessageForm, answer: Mail.RelayReply) returns (r: Response)
    modifies mailer
    ensures !Complete(form) ==> r == Response(400, Problem("Missing required fields")) && mailer.outbox == old(mailer.outbox)
    ensures Complete(form) ==> mailer.outbox == old(mailer.outbox) + [Notification(env, form)] && r == SendOutcome(answer)
  {
    if !Complete(form) {
      return Response(400, Problem("Missing required fields"));
    }
    var reply := mailer.Send(Notification(env, form), answer);
    r := SendOutcome(reply);
  }

  /** GET: always an empty list (messages live in the browser). */
  function Get(): (r: Response)
    ensures r.status == 200 && r.body.Messages? && r.body.items == []
  {
    Response(200, Messages([]))
  }

  /** A missing company does not stop a message, and the subject only gains the prefix. */
  lemma CompanyOptional(env: RelayEnv, subject: string, message: string, clientEmail: string)
    requires subject != [] && message != [] && clientEmail != []
    ensures Complete(MessageForm(Some(subject), Some(message), Some(clientEmail), None))
    ensures Notification(env, MessageForm(Some(subject), Some(message), Some(clientEmail), None)).subject[|SubjectPrefix|..] == subject
  {
  }
}
