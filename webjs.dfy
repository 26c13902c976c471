/**
 * The record shapes the Node back end and the web front end exchange:
 * the parts of a whatsapp-web.js `Message` that the synchronisation code reads.
 */
module WebJs {
  import opened Wrappers

  /** `message.id`: `id` identifies the message, `remote` the chat it belongs to. */
  datatype MessageId = MessageId(id: string, remote: string, fromMe: bool)

  /** `WAWebJS.Message`; `timestamp` is in seconds since the epoch. */
  datatype Message = Message(
    id: MessageId,
    body: string,
    timestamp: int,
    fromMe: bool,
    author: Option<string>)
}
