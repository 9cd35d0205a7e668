/**
 * The outbound e-mail relay. The model keeps an outbox of every message handed to the relay's
 * `emails.send` call; what the relay answers is an input (`RelayReply`).
 */
module Mail {
  import opened Wrappers

  /** The parts of a relay request the core decides; template markup is not modelled. */
  datatype Email = Email(from: Option<string>, to: Option<string>, subject: string, replyTo: Option<string>, text: string)

  /** The `data` object of a relay answer. */
  datatype Sent = Sent(id: Option<string>)

  /**
   * What `emails.send` hands back: it throws, resolves to nothing, or resolves to an object
   * with optional truthy `data` and `error` members and an optional top-level `id` member
   * (`Some(None)`: the key is present with an undefined value).
   */
  datatype RelayReply =
    | Thrown
    | NoReply
    | Reply(data: Option<Sent>, error: Option<string>, id: Option<Option<string>>)

  class Mailer {
    var outbox: seq<Email>

    constructor ()
      ensures outbox == []
    {
      outbox := [];
    }

    /** One `emails.send` call: the request is recorded, and the relay's answer is passed back. */
    method Send(e: Email, answer: RelayReply) returns (r: RelayReply)
      modifies this
      ensures outbox == old(outbox) + [e] && r == answer
    {
      outbox := outbox + [e];
      r := answer;
    }
  }
}
