/**
 * The connection snapshot of the Node back end (`whatsappClientState` in
 * apps/server/src/lib/whatsapp/client.ts) and the handlers the upstream
 * whatsapp-web.js client fires into it.
 */
module ServerClient {
  import opened Wrappers
  import opened WebJs
  import opened EventBus

  /** The session fields kept from an `authenticated` event. */
  datatype AuthData = AuthData(browserId: string, secretBundle: string, token1: string, token2: string)

  /** The session object an `authenticated` event carries. */
  datatype SessionData = SessionData(
    waBrowserId: string,
    waSecretBundle: string,
    waToken1: string,
    waToken2: string)

  /** The authentication fields an `authenticated` event with session data yields. */
  function AuthDataOf(data: SessionData): (a: AuthData)
    ensures a.browserId == data.waBrowserId && a.secretBundle == data.waSecretBundle
    ensures a.token1 == data.waToken1 && a.token2 == data.waToken2
  {
    AuthData(data.waBrowserId, data.waSecretBundle, data.waToken1, data.waToken2)
  }

  class WhatsappClientState {
    var qrCode: Option<string>
    var authData: Option<AuthData>
    var isReady: bool
    /** The `client.once("ready", …)` handler is still registered. */
    var readyHandlerArmed: bool
    /** Every inbound message, in arrival order. */
    var messages: seq<Message>
    /** `messageEvents`, on which every inbound message is emitted. */
    const messageEvents: MessageBus

    /** Readiness is set exactly when the one-shot `ready` handler has fired. */
    ghost predicate Valid()
      reads this, messageEvents, messageEvents.subscriptions
    {
      && messageEvents.Valid()
      && (isReady <==> !readyHandlerArmed)
    }

    /** The initial snapshot: no QR code, no session, not ready, no messages. */
    constructor (bus: MessageBus)
      requires bus.Valid()
      ensures Valid() && messageEvents == bus
      ensures qrCode == None && authData == None && !isReady && messages == []
    {
      messageEvents := bus;
      qrCode := None;
      authData := None;
      isReady := false;
      readyHandlerArmed := true;
      messages := [];
    }

    /** `ready`: handled at most once; it sets `isReady`, and nothing clears it. */
    method OnReady()
      requires Valid()
      modifies this`isReady, this`readyHandlerArmed
      ensures Valid() && isReady
      ensures !old(readyHandlerArmed) ==> readyHandlerArmed == old(readyHandlerArmed) && isReady == old(isReady)
    {
      if readyHandlerArmed {
        readyHandlerArmed := false;
        isReady := true;
      }
    }

    /** `qr`: the latest code replaces the previous one. */
    method OnQr(qr: string)
      modifies this`qrCode
      ensures qrCode == Some(qr)
    {
      qrCode := Some(qr);
    }

    /** `authenticated`: session data, when present, replaces `authData`; otherwise nothing changes. */
    method OnAuthenticated(data: Option<SessionData>)
      modifies this`authData
      ensures data.Some? ==> authData == Some(AuthDataOf(data.value))
      ensures data.None? ==> authData == old(authData)
    {
      if data.Some? {
        authData := Some(AuthDataOf(data.value));
      }
    }

    /**
     * `message`: the message is appended to `messages` (which only ever grows, by
     * one per message) and then emitted once to every registered stream.
     */
    method OnMessage(m: Message)
      requires Valid()
      modifies this`messages, messageEvents.listeners
      ensures Valid()
      ensures messages == old(messages) + [m] && |messages| == |old(messages)| + 1
      ensures forall s :: s in messageEvents.listeners ==> s.queue == old(s.queue) + [m] && !s.waiting
    {
      messages := messages + [m];
      messageEvents.Emit(m);
    }
  }
}
