/**
 * The record shapes of the Go back end (internal/models/types.go), shared with
 * the `frontend` client through its generated API types, and the JID.
 */
module GoModels {

  /**
   * A WhatsApp JID as whatsmeow's `types.JID`: `user` and `server` are its fields,
   * `text` is what its `String()` renders (which may add agent and device parts).
   */
  datatype Jid = Jid(user: string, server: string, text: string)

  /** `models.Message`. */
  datatype Message = Message(
    id: string,
    timestamp: int,
    text: string,
    chatJid: string,
    senderJid: string,
    isFromMe: bool)

  /** `models.Participant`. */
  datatype Participant = Participant(jid: string, isAdmin: bool)

  /** `models.Chat`; an empty `description` or `participants` is omitted from the JSON. */
  datatype Chat = Chat(
    jid: string,
    name: string,
    pfp: string,
    isGroup: bool,
    description: string,
    participants: seq<Participant>)

  /** `models.SendMessageRequest`. */
  datatype SendMessageRequest = SendMessageRequest(jid: string, text: string)

  /** The `Data` of an `APIEvent`: a string (QR code, status, buffer) or a message. */
  datatype EventData = TextData(text: string) | MessageData(message: Message)

  /** `models.APIEvent`; `eventType` is the `event` JSON field. */
  datatype APIEvent = APIEvent(clientId: string, eventType: string, data: EventData)

  /** `fmt.Sprintf("%s@%s", j.User, j.Server)`. */
  function UserAtServer(j: Jid): string {
    j.user + "@" + j.server
  }

  /** The index of the first '@' in `s`, if any. */
  function FirstAt(s: string): (r: int)
    ensures -1 <= r < |s|
    ensures r >= 0 ==> s[r] == '@' && forall k :: 0 <= k < r ==> s[k] != '@'
    ensures r == -1 ==> forall k :: 0 <= k < |s| ==> s[k] != '@'
  {
    if s == [] then -1
    else if s[0] == '@' then 0
    else
      var r := FirstAt(s[1..]);
      if r == -1 then -1 else r + 1
  }

  /**
   * A normalised JID splits back into its user and server at the first '@', provided
   * the user part has no '@' (as a WhatsApp user part never has).
   */
  lemma UserAtServerSplits(j: Jid)
    requires forall k :: 0 <= k < |j.user| ==> j.user[k] != '@'
    ensures FirstAt(UserAtServer(j)) == |j.user|
    ensures UserAtServer(j)[..|j.user|] == j.user && UserAtServer(j)[|j.user| + 1..] == j.server
  {
    var s := UserAtServer(j);
    assert s[|j.user|] == '@';
    forall k | 0 <= k < |j.user| ensures s[k] != '@' {
      assert s[k] == j.user[k];
    }
  }
}
