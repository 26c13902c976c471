/**
 * The `frontend` client's event listener (frontend/src/hooks/use-whatsapp-event.ts):
 * what each server-sent event from the Go back end does to the client's state.
 *
 * The effect registers its listeners once per client ID; it does not list the
 * message map among its dependencies, so the message listener consults the map
 * as it was when the effect ran. The EventSource itself, its error handler and
 * JSON parsing are left out: each handler receives the parsed payload.
 */
module WhatsappEvent {
  import opened Wrappers
  import opened GoModels
  import opened FrontendStore

  /** A parsed server-sent event, by its `event` name. */
  datatype StreamEvent =
    | BufferEvent
    | QrCodeEvent(code: string)
    | MessageEvent(message: Message)
    | StatusEvent(status: string)

  /** The state `useWhatsappEvent` reads and writes, with the listeners registered by its effect. */
  class EventHook {
    /** The client ID the effect ran for; an empty one registers no listeners. */
    const clientId: string
    /** `messageMapAtom`. */
    const store: MessageMap
    /** The keys of the message map captured when the effect ran. */
    const snapshot: set<string>
    /** `qrCodeAtom`. */
    var qrCode: Option<string>
    /** `whatsappConnected`. */
    var connected: bool
    /** The `textpilot-client-id` local-storage entry. */
    var storedClientId: Option<string>

    /** The hook's first render and its effect: not connected, and the map's current keys captured. */
    constructor (clientId: string, store: MessageMap, qrCode: Option<string>, storedClientId: Option<string>)
      ensures this.clientId == clientId && this.store == store && snapshot == store.lists.Keys
      ensures this.qrCode == qrCode && !connected && this.storedClientId == storedClientId
    {
      this.clientId := clientId;
      this.store := store;
      snapshot := store.lists.Keys;
      this.qrCode := qrCode;
      connected := false;
      this.storedClientId := storedClientId;
    }

    /**
     * Handles one event. Without a client ID, and for `buffer`, nothing changes.
     * `qr_code` stores the code. `message` records the message, consulting the
     * captured keys. `connected` and `logged_in` mark the client connected and
     * store its ID; `disconnected` marks it disconnected and clears the stored ID;
     * any other status changes nothing.
     */
    method Handle(evt: StreamEvent)
      modifies this, store
      ensures store.State() == if clientId != "" && evt.MessageEvent?
                               then Recorded(old(store.State()), evt.message.chatJid in snapshot, evt.message)
                               else old(store.State())
      ensures qrCode == if clientId != "" && evt.QrCodeEvent? then Some(evt.code) else old(qrCode)
      ensures clientId != "" && evt.StatusEvent? && evt.status in {"connected", "logged_in"} ==>
                connected && storedClientId == Some(clientId)
      ensures clientId != "" && evt.StatusEvent? && evt.status == "disconnected" ==>
                !connected && storedClientId == None
      ensures !(clientId != "" && evt.StatusEvent? && evt.status in {"connected", "logged_in", "disconnected"}) ==>
                connected == old(connected) && storedClientId == old(storedClientId)
    {
      if clientId == "" {
        return;
      }
      match evt {
        case BufferEvent =>
        case QrCodeEvent(code) =>
          qrCode := Some(code);
        case MessageEvent(message) =>
          store.Record(message.chatJid in snapshot, message);
        case StatusEvent(status) =>
          if status == "connected" || status == "logged_in" {
            connected := true;
            storedClientId := Some(clientId);
          } else if status == "disconnected" {
            connected := false;
            storedClientId := None;
          }
      }
    }

    /**
     * The message listener consulting the map as it is when the message arrives
     * (a functional update deciding inside the recipe), all else as `Handle`.
     */
    method HandleCurrent(evt: StreamEvent)
      modifies this, store
      ensures store.State() == if clientId != "" && evt.MessageEvent?
                               then Recorded(old(store.State()), evt.message.chatJid in old(store.lists), evt.message)
                               else old(store.State())
      ensures qrCode == if clientId != "" && evt.QrCodeEvent? then Some(evt.code) else old(qrCode)
      ensures clientId != "" && evt.StatusEvent? && evt.status in {"connected", "logged_in"} ==>
                connected && storedClientId == Some(clientId)
      ensures clientId != "" && evt.StatusEvent? && evt.status == "disconnected" ==>
                !connected && storedClientId == None
      ensures !(clientId != "" && evt.StatusEvent? && evt.status in {"connected", "logged_in", "disconnected"}) ==>
                connected == old(connected) && storedClientId == old(storedClientId)
    {
      if clientId != "" && evt.MessageEvent? {
        store.Record(evt.message.chatJid in store.lists, evt.message);
      } else {
        Handle(evt);
      }
    }
  }

  /**
   * As written: with an empty map when the effect runs, two messages to one chat
   * leave that chat with only the second message.
   */
  method TwoMessagesToNewChat(clientId: string, m1: Message, m2: Message) returns (kept: seq<Message>)
    requires clientId != "" && m1.chatJid == m2.chatJid
    ensures kept == [m2]
  {
    var store := new MessageMap();
    var hook := new EventHook(clientId, store, None, None);
    hook.Handle(MessageEvent(m1));
    hook.Handle(MessageEvent(m2));
    kept := store.lists[m1.chatJid];
  }

  /** Consulting the current map, the same two messages are both kept, in order. */
  method TwoMessagesToNewChatCurrent(clientId: string, m1: Message, m2: Message) returns (kept: seq<Message>)
    requires clientId != "" && m1.chatJid == m2.chatJid
    ensures kept == [m1, m2]
  {
    var store := new MessageMap();
    var hook := new EventHook(clientId, store, None, None);
    hook.HandleCurrent(MessageEvent(m1));
    hook.HandleCurrent(MessageEvent(m2));
    kept := store.lists[m1.chatJid];
  }
}
