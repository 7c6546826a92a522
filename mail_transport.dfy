/** The mail-delivery library the plugin hands its messages to (Swift Mailer),
    reduced to what the plugin can observe of it: the messages it was given,
    in order, and the recipients it reported as failed for each of them. */
module MailTransport {

  /** A message as the plugin builds it: sender, recipient list, subject, body and content type. */
  datatype Message = Message(from: string, to: seq<string>, subject: string, body: string, contentType: string)

  /** The mailer. `rejects` is the delivery outcome, which lies outside the plugin:
      for each message, the recipients the transport reports it could not deliver to.
      `outbox` is a ghost record of the sends, in order; the transport keeps no such list. */
  class Mailer {
    ghost var outbox: seq<Message>
    const rejects: Message -> seq<string>

    constructor (rejects: Message -> seq<string>)
      ensures outbox == [] && this.rejects == rejects
    {
      outbox := [];
      this.rejects := rejects;
    }

    /** `$mailer->send($message, $failedAddresses)`: hands over one message and
        fills the failed-address list passed by reference. */
    method Send(message: Message) returns (failed: seq<string>)
      modifies this
      ensures outbox == old(outbox) + [message]
      ensures failed == rejects(message)
    {
      outbox := outbox + [message];
      failed := rejects(message);
    }
  }
}
