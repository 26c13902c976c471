/**
 * The Go wrapper around a whatsmeow client (internal/whatsapp/client.go): the
 * in-memory message store keyed by ID, the event channel, the event handler,
 * sending, and the translation of whatsmeow events into API events.
 *
 * A Go panic is an outcome value. The channel is the sequence of events written to
 * it; its 100-slot buffer and its reader are left out.
 */
module GoWhatsapp {
  import opened Wrappers
  import opened GoModels
  import opened ApiErrors

  /** The `ExtendedTextMessage` of a payload; `text` is its optional `Text` field. */
  datatype ExtendedText = ExtendedText(text: Option<string>)

  /** The parts of a whatsmeow message payload read here; an absent conversation reads as "". */
  datatype Payload = Payload(conversation: string, extendedText: Option<ExtendedText>)

  /** `events.Message.Info`. */
  datatype MessageInfo = MessageInfo(id: string, timestamp: int, chat: Jid, sender: Jid, isFromMe: bool)

  /** The whatsmeow events the client distinguishes; every other event type is `OtherEvent`. */
  datatype WaEvent =
    | QrEvent(codes: seq<string>)
    | MessageEvent(info: MessageInfo, message: Payload)
    | ConnectedEvent
    | DisconnectedEvent
    | LoggedOutEvent
    | OtherEvent

  /** Whether a Go call returned or panicked. */
  datatype Outcome = Returned | Panicked

  /**
   * The text of a message: the conversation when non-empty, else the extended text's
   * body. None stands for the nil dereference that panics when either is missing.
   */
  function MessageText(p: Payload): (r: Option<string>)
    ensures p.conversation != "" ==> r == Some(p.conversation)
    ensures p.conversation == "" ==> (r.Some? <==> p.extendedText.Some? && p.extendedText.value.text.Some?)
    ensures p.conversation == "" && r.Some? ==> r.value == p.extendedText.value.text.value
  {
    if p.conversation != "" then Some(p.conversation)
    else if p.extendedText.Some? && p.extendedText.value.text.Some? then p.extendedText.value.text
    else None
  }

  /** The `models.Message` built from a message event with text `text`. */
  function ApiMessage(info: MessageInfo, text: string): Message {
    Message(info.id, info.timestamp, text, info.chat.text, info.sender.text, info.isFromMe)
  }

  /** What the event handler stores for an event: a message event with text, and nothing else. */
  function Stored(evt: WaEvent): (r: Option<Message>)
    ensures r.Some? <==> evt.MessageEvent? && MessageText(evt.message).Some?
    ensures r.Some? ==> r.value.id == evt.info.id && r.value.text == MessageText(evt.message).value
  {
    if evt.MessageEvent? && MessageText(evt.message).Some? then Some(ApiMessage(evt.info, MessageText(evt.message).value))
    else None
  }

  /** The result of `ToAPIEvent`: an event to forward, nil (skip), or a panic. */
  datatype Translation = Forward(event: APIEvent) | Skip | Panic

  /**
   * `ToAPIEvent`: QR events become `qr_code` with the first code (panicking when there
   * is none), message events `message` with the message copied, the three connection
   * events `status`, and anything else nil. `ClientId` is left empty.
   */
  function ToAPIEvent(evt: WaEvent, clientId: string): (r: Translation)
    ensures r.Skip? <==> evt.OtherEvent?
    ensures r.Panic? <==> (evt.QrEvent? && |evt.codes| == 0) || (evt.MessageEvent? && MessageText(evt.message).None?)
    ensures r.Forward? ==> r.event.clientId == "" && r.event.eventType in {"qr_code", "message", "status"}
    ensures r.Forward? && evt.QrEvent? ==> r.event == APIEvent("", "qr_code", TextData(evt.codes[0]))
    ensures r.Forward? && evt.MessageEvent? ==> r.event == APIEvent("", "message", MessageData(Stored(evt).value))
    ensures evt.ConnectedEvent? ==> r == Forward(APIEvent("", "status", TextData("connected")))
    ensures evt.DisconnectedEvent? ==> r == Forward(APIEvent("", "status", TextData("disconnected")))
    ensures evt.LoggedOutEvent? ==> r == Forward(APIEvent("", "status", TextData("logged_out")))
  {
    match evt
    case QrEvent(codes) =>
      if |codes| == 0 then Panic else Forward(APIEvent("", "qr_code", TextData(codes[0])))
    case MessageEvent(info, message) =>
      var text := MessageText(message);
      if text.None? then Panic else Forward(APIEvent("", "message", MessageData(ApiMessage(info, text.value))))
    case ConnectedEvent => Forward(APIEvent("", "status", TextData("connected")))
    case DisconnectedEvent => Forward(APIEvent("", "status", TextData("disconnected")))
    case LoggedOutEvent => Forward(APIEvent("", "status", TextData("logged_out")))
    case OtherEvent => Skip
  }

  /** Events the handler writes to the channel: the five handled kinds, a message only when it has text. */
  predicate Pushable(evt: WaEvent) {
    match evt
    case MessageEvent(_, message) => MessageText(message).Some?
    case OtherEvent => false
    case _ => true
  }

  /**
   * Every event the handler can write to the channel is forwarded by `ToAPIEvent`
   * unless it is a QR event without codes, and a forwarded message is exactly the
   * message the handler stored for it.
   */
  lemma PushedEventsTranslate(evt: WaEvent, clientId: string)
    requires Pushable(evt)
    ensures ToAPIEvent(evt, clientId).Forward? <==> !(evt.QrEvent? && |evt.codes| == 0)
    ensures evt.MessageEvent? ==> ToAPIEvent(evt, clientId).event.data == MessageData(Stored(evt).value)
  {
  }

  class WhatsappClient {
    /** `messages`: the in-memory store keyed by message ID. */
    var messages: map<string, Message>
    /** The events written to `eventChan`, oldest first. */
    var channel: seq<WaEvent>
    /** `eventChan` has been closed. */
    var closed: bool
    /** `Client.Store.ID`: the account's own JID. */
    const ownJid: Jid

    /** `NewWhatsappClient`, past its store setup: an empty store and an open channel. */
    constructor (ownJid: Jid)
      ensures this.ownJid == ownJid
      ensures messages == map[] && channel == [] && !closed
    {
      this.ownJid := ownJid;
      messages := map[];
      channel := [];
      closed := false;
    }

    /** `wc.eventChan <- evt`: a send on a closed channel panics. */
    method Push(evt: WaEvent) returns (outcome: Outcome)
      modifies this`channel
      ensures closed ==> outcome == Panicked && channel == old(channel)
      ensures !closed ==> outcome == Returned && channel == old(channel) + [evt]
    {
      if closed {
        return Panicked;
      }
      channel := channel + [evt];
      outcome := Returned;
    }

    /** `Close`: closes the channel; closing it a second time panics. */
    method Close() returns (outcome: Outcome)
      modifies this`closed
      ensures closed
      ensures outcome == Panicked <==> old(closed)
    {
      if closed {
        return Panicked;
      }
      closed := true;
      outcome := Returned;
    }

    /**
     * `eventHandler`. A message event with text is stored under its ID (replacing any
     * message with that ID) and then pushed; one without text panics before either.
     * QR and connection events are pushed; a disconnection or logout then closes the
     * channel. Other events change nothing. Pushing to a closed channel panics.
     */
    method EventHandler(evt: WaEvent) returns (outcome: Outcome)
      modifies this`messages, this`channel, this`closed
      ensures Stored(evt).Some? ==> messages == old(messages)[evt.info.id := Stored(evt).value]
      ensures Stored(evt).None? ==> messages == old(messages)
      ensures !Pushable(evt) ==> channel == old(channel) && closed == old(closed)
      ensures !Pushable(evt) ==> (outcome == Panicked <==> evt.MessageEvent?)
      ensures Pushable(evt) && old(closed) ==> outcome == Panicked && channel == old(channel) && closed
      ensures Pushable(evt) && !old(closed) ==> outcome == Returned && channel == old(channel) + [evt]
      ensures Pushable(evt) && !old(closed) ==> (closed <==> evt.DisconnectedEvent? || evt.LoggedOutEvent?)
    {
      match evt {
        case MessageEvent(info, message) =>
          var text := MessageText(message);
          if text.None? {
            return Panicked;
          }
          messages := messages[info.id := ApiMessage(info, text.value)];
          outcome := Push(evt);
        case QrEvent(_) =>
          outcome := Push(evt);
        case ConnectedEvent =>
          outcome := Push(evt);
        case DisconnectedEvent =>
          outcome := Push(evt);
          if outcome == Returned {
            outcome := Close();
          }
        case LoggedOutEvent =>
          outcome := Push(evt);
          if outcome == Returned {
            outcome := Close();
          }
        case OtherEvent =>
          outcome := Returned;
      }
    }

    /**
     * `SendTextMessage`: a failed upstream send returns the error wrapped with
     * "failed to send message: " and stores nothing; a successful one stores the sent
     * text under the response ID, from this account, to `jid`, at time `now`.
     */
    method SendTextMessage(jid: Jid, text: string, upstream: Result<string, GoError>, now: int)
      returns (r: Result<string, GoError>)
      modifies this`messages
      ensures upstream.Err? ==> r == Err(Prefixed("failed to send message: ", upstream.error)) && messages == old(messages)
      ensures upstream.Ok? ==> r == upstream
      ensures upstream.Ok? ==> messages == old(messages)[upstream.value := Message(upstream.value, now, text, jid.text, ownJid.text, true)]
    {
      if upstream.Err? {
        return Err(Prefixed("failed to send message: ", upstream.error));
      }
      var msg := Message(upstream.value, now, text, jid.text, ownJid.text, true);
      messages := messages[msg.id := msg];
      r := upstream;
    }

    /** `GetMessage`: the message stored under `id`, or None when there is none. */
    method GetMessage(id: string) returns (r: Option<Message>)
      ensures r.Some? <==> id in messages
      ensures r.Some? ==> r.value == messages[id]
    {
      if id in messages {
        r := Some(messages[id]);
      } else {
        r := None;
      }
    }
  }
}
