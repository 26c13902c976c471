/**
 * The HTTP handlers of the Go back end (internal/api/handlers.go): chat listing
 * and chat details with their name-resolution rules, sending a message, reading a
 * stored message, the event stream, and disconnecting a client.
 *
 * Calls into whatsmeow and the standard library (contact and group stores, profile
 * pictures, `types.ParseJID`, `url.QueryUnescape`, JSON decoding and marshalling)
 * are parameters holding the outcome each call would have.
 */
module ApiHandlers {
  import opened Wrappers
  import opened GoModels
  import opened ApiErrors
  import opened GoWhatsapp
  import opened Manager
  import opened Sse

  /** The messages the handlers put in their errors and replies. */
  const UnescapeClientIdPrefix := "failed to unescape clientID: "
  const UnescapeChatIdPrefix := "failed to unescape chatID: "
  const ParseJidPrefix := "failed to parse JID: "
  const NotFlusher := "http.ResponseWriter does not implement http.Flusher"
  const DisconnectedText := "Client disconnected successfully"

  /** What a handler leads to: its returned value or API error, or a panic that chi's Recoverer turns into a 500. */
  datatype Reply<T> = Answer(result: Result<T, APIError>) | Recovered

  // ---------------------------------------------------------------------------
  // Name resolution
  // ---------------------------------------------------------------------------

  /** The first non-empty candidate, or `fallback` when every candidate is empty. */
  function FirstNonEmpty(candidates: seq<string>, fallback: string): (r: string)
    ensures (forall k :: 0 <= k < |candidates| ==> candidates[k] == "") ==> r == fallback
    ensures (exists k :: 0 <= k < |candidates| && candidates[k] != "") ==>
              exists i :: 0 <= i < |candidates| && candidates[i] != "" && r == candidates[i] &&
                          forall k :: 0 <= k < i ==> candidates[k] == ""
  {
    if candidates == [] then fallback
    else if candidates[0] != "" then candidates[0]
    else
      var r := FirstNonEmpty(candidates[1..], fallback);
      FirstNonEmptyShift(candidates, fallback, r);
      r
  }

  /** The witness for the tail's first non-empty candidate, shifted by one. */
  lemma FirstNonEmptyShift(candidates: seq<string>, fallback: string, r: string)
    requires candidates != [] && candidates[0] == ""
    requires (forall k :: 0 <= k < |candidates[1..]| ==> candidates[1..][k] == "") ==> r == fallback
    requires (exists k :: 0 <= k < |candidates[1..]| && candidates[1..][k] != "") ==>
               exists i :: 0 <= i < |candidates[1..]| && candidates[1..][i] != "" && r == candidates[1..][i] &&
                           forall k :: 0 <= k < i ==> candidates[1..][k] == ""
    ensures (forall k :: 0 <= k < |candidates| ==> candidates[k] == "") ==> r == fallback
    ensures (exists k :: 0 <= k < |candidates| && candidates[k] != "") ==>
              exists i :: 0 <= i < |candidates| && candidates[i] != "" && r == candidates[i] &&
                          forall k :: 0 <= k < i ==> candidates[k] == ""
  {
    var tail := candidates[1..];
    if exists k :: 0 <= k < |candidates| && candidates[k] != "" {
      var k0 :| 0 <= k0 < |candidates| && candidates[k0] != "";
      assert tail[k0 - 1] != "";
      var i :| 0 <= i < |tail| && tail[i] != "" && r == tail[i] && forall k :: 0 <= k < i ==> tail[k] == "";
      assert candidates[i + 1] == r;
      forall k | 0 <= k < i + 1 ensures candidates[k] == "" {
        if k > 0 { assert candidates[k] == tail[k - 1]; }
      }
    } else {
      forall k | 0 <= k < |tail| ensures tail[k] == "" {
        assert tail[k] == candidates[k + 1];
      }
    }
  }

  /** The contact fields the handlers read. */
  datatype ContactInfo = ContactInfo(pushName: string, fullName: string, businessName: string)

  /** A contact's name in `getChats`. */
  function ContactName(jid: Jid, info: ContactInfo): string {
    if info.pushName != "" then info.pushName
    else if info.fullName != "" then info.fullName
    else jid.text
  }

  /** A contact's name is its push name, else its full name, else its JID string. */
  lemma ContactNamePriority(jid: Jid, info: ContactInfo)
    ensures ContactName(jid, info) == FirstNonEmpty([info.pushName, info.fullName], jid.text)
  {
    var c := [info.pushName, info.fullName];
    if info.pushName == "" {
      assert c[1..] == [info.fullName];
      if info.fullName == "" {
        assert [info.fullName][1..] == [];
      }
    }
  }

  /** A chat's name in `getChat`, before any group override. */
  function ChatDetailName(jid: Jid, info: ContactInfo): string {
    if info.businessName != "" then info.businessName
    else if info.fullName != "" then info.fullName
    else UserAtServer(jid)
  }

  /** A chat's name is the business name, else the full name, else `user@server`. */
  lemma ChatDetailNamePriority(jid: Jid, info: ContactInfo)
    ensures ChatDetailName(jid, info) == FirstNonEmpty([info.businessName, info.fullName], UserAtServer(jid))
  {
    var c := [info.businessName, info.fullName];
    if info.businessName == "" {
      assert c[1..] == [info.fullName];
      if info.fullName == "" {
        assert [info.fullName][1..] == [];
      }
    }
  }

  // ---------------------------------------------------------------------------
  // getChats
  // ---------------------------------------------------------------------------

  /** A JID on the group server. */
  predicate IsGroupJid(jid: Jid) {
    jid.server == "g.us"
  }

  /** A group member as whatsmeow reports it. */
  datatype GroupParticipant = GroupParticipant(jid: Jid, isAdmin: bool)

  /** The group fields the handlers read. */
  datatype GroupInfo = GroupInfo(jid: Jid, name: string, topic: string, participants: seq<GroupParticipant>)

  /** The chat `getChats` lists for a non-group contact. */
  function ContactChat(jid: Jid, info: ContactInfo): Chat {
    Chat(jid.text, ContactName(jid, info), "", false, "", [])
  }

  /**
   * The chat `getChats` lists for a joined group. The description is set only for a
   * non-empty topic; an empty topic leaves it empty, so it always equals the topic.
   */
  function GroupChat(g: GroupInfo): Chat {
    Chat(g.jid.text, g.name, "", true, g.topic, [])
  }

  /** The contact chats, in the order the contacts are visited; group JIDs are skipped. */
  function ContactChats(contacts: seq<(Jid, ContactInfo)>): (r: seq<Chat>)
    ensures |r| <= |contacts|
    ensures forall i :: 0 <= i < |r| ==> !r[i].isGroup
    ensures forall i :: 0 <= i < |r| ==> ChatOfContact(contacts, r[i])
    ensures forall k :: 0 <= k < |contacts| && !IsGroupJid(contacts[k].0) ==> ContactChat(contacts[k].0, contacts[k].1) in r
    decreases |contacts|
  {
    if contacts == [] then []
    else
      var n := |contacts| - 1;
      var prefix := ContactChats(contacts[..n]);
      assert forall k :: 0 <= k < n ==> contacts[..n][k] == contacts[k];
      ChatOfContactPrefix(contacts, n, prefix);
      if IsGroupJid(contacts[n].0) then prefix
      else
        var r := prefix + [ContactChat(contacts[n].0, contacts[n].1)];
        assert ChatOfContact(contacts, r[|prefix|]);
        assert forall i :: 0 <= i < |prefix| ==> r[i] == prefix[i];
        r
  }

  /** `chat` is the contact chat of some non-group contact. */
  ghost predicate ChatOfContact(contacts: seq<(Jid, ContactInfo)>, chat: Chat) {
    exists k :: 0 <= k < |contacts| && !IsGroupJid(contacts[k].0) && chat == ContactChat(contacts[k].0, contacts[k].1)
  }

  lemma ChatOfContactPrefix(contacts: seq<(Jid, ContactInfo)>, n: nat, chats: seq<Chat>)
    requires n <= |contacts|
    requires forall i :: 0 <= i < |chats| ==> ChatOfContact(contacts[..n], chats[i])
    ensures forall i :: 0 <= i < |chats| ==> ChatOfContact(contacts, chats[i])
  {
    forall i | 0 <= i < |chats| ensures ChatOfContact(contacts, chats[i]) {
      var k :| 0 <= k < n && !IsGroupJid(contacts[..n][k].0) && chats[i] == ContactChat(contacts[..n][k].0, contacts[..n][k].1);
      assert contacts[..n][k] == contacts[k];
    }
  }

  /** The contacts not on the group server, in store order (an independent filter). */
  function NonGroupContacts(contacts: seq<(Jid, ContactInfo)>): seq<(Jid, ContactInfo)> {
    if contacts == [] then []
    else if IsGroupJid(contacts[0].0) then NonGroupContacts(contacts[1..])
    else [contacts[0]] + NonGroupContacts(contacts[1..])
  }

  lemma {:induction false} NonGroupContactsSnoc(contacts: seq<(Jid, ContactInfo)>, c: (Jid, ContactInfo))
    ensures NonGroupContacts(contacts + [c]) == NonGroupContacts(contacts) + (if IsGroupJid(c.0) then [] else [c])
    decreases |contacts|
  {
    if contacts != [] {
      assert (contacts + [c])[1..] == contacts[1..] + [c];
      NonGroupContactsSnoc(contacts[1..], c);
    }
  }

  /**
   * `getChats` lists exactly one chat per non-group contact, in the order the
   * contacts are visited, and nothing else.
   */
  lemma {:induction false} ContactChatsFilterMap(contacts: seq<(Jid, ContactInfo)>)
    ensures |ContactChats(contacts)| == |NonGroupContacts(contacts)|
    ensures forall i :: 0 <= i < |ContactChats(contacts)| ==>
              ContactChats(contacts)[i] == ContactChat(NonGroupContacts(contacts)[i].0, NonGroupContacts(contacts)[i].1)
    decreases |contacts|
  {
    if contacts != [] {
      var n := |contacts| - 1;
      ContactChatsFilterMap(contacts[..n]);
      assert contacts[..n] + [contacts[n]] == contacts;
      NonGroupContactsSnoc(contacts[..n], contacts[n]);
    }
  }

  /** One chat per joined group, in order. */
  function GroupChats(groups: seq<GroupInfo>): (r: seq<Chat>)
    ensures |r| == |groups|
    ensures forall i :: 0 <= i < |r| ==> r[i] == GroupChat(groups[i]) && r[i].isGroup
  {
    seq(|groups|, i requires 0 <= i < |groups| => GroupChat(groups[i]))
  }

  /** In the `getChats` list every contact chat comes before every group chat. */
  lemma ContactsBeforeGroups(contacts: seq<(Jid, ContactInfo)>, groups: seq<GroupInfo>)
    ensures var r := ContactChats(contacts) + GroupChats(groups);
            forall i, j :: 0 <= i < j < |r| && r[i].isGroup ==> r[j].isGroup
  {
    var c := ContactChats(contacts);
    var r := c + GroupChats(groups);
    forall i, j | 0 <= i < j < |r| && r[i].isGroup ensures r[j].isGroup {
      assert i >= |c|;
      assert r[j] == GroupChats(groups)[j - |c|];
    }
  }

  /**
   * `getChats`: unknown client, then a failing contact store, then a failing group
   * query give their errors; otherwise the contact chats followed by the group chats.
   */
  method GetChats(m: ClientManager, clientId: string,
                  contacts: Result<seq<(Jid, ContactInfo)>, GoError>, groups: Result<seq<GroupInfo>, GoError>)
    returns (r: Result<seq<Chat>, APIError>)
    ensures clientId !in m.clients ==> r == Err(ErrClientNotFound)
    ensures clientId in m.clients && contacts.Err? ==> r == Err(Wrap(ErrInternalServerError, contacts.error))
    ensures clientId in m.clients && contacts.Ok? && groups.Err? ==> r == Err(Wrap(ErrInternalServerError, groups.error))
    ensures clientId in m.clients && contacts.Ok? && groups.Ok? ==>
              r == Ok(ContactChats(contacts.value) + GroupChats(groups.value))
  {
    var client := m.Get(clientId);
    if client.None? {
      return Err(ErrClientNotFound);
    }
    if contacts.Err? {
      return Err(Wrap(ErrInternalServerError, contacts.error));
    }
    var chats := CollectContactChats(contacts.value);
    if groups.Err? {
      return Err(Wrap(ErrInternalServerError, groups.error));
    }
    chats := AppendGroupChats(chats, groups.value);
    r := Ok(chats);
  }

  /** The loop over the contact store: a chat for each contact not on the group server. */
  method CollectContactChats(contacts: seq<(Jid, ContactInfo)>) returns (chats: seq<Chat>)
    ensures chats == ContactChats(contacts)
  {
    chats := [];
    var i := 0;
    while i < |contacts|
      invariant 0 <= i <= |contacts|
      invariant chats == ContactChats(contacts[..i])
    {
      var (jid, info) := contacts[i];
      assert contacts[..i + 1][..i] == contacts[..i];
      if !IsGroupJid(jid) {
        chats := chats + [ContactChat(jid, info)];
      }
      i := i + 1;
    }
    assert contacts[..i] == contacts;
  }

  /** The loop over the joined groups: a group chat appended for each. */
  method AppendGroupChats(contactChats: seq<Chat>, groups: seq<GroupInfo>) returns (chats: seq<Chat>)
    ensures chats == contactChats + GroupChats(groups)
  {
    chats := contactChats;
    var j := 0;
    while j < |groups|
      invariant 0 <= j <= |groups|
      invariant |chats| == |contactChats| + j
      invariant chats[..|contactChats|] == contactChats
      invariant forall k :: 0 <= k < j ==> chats[|contactChats| + k] == GroupChat(groups[k])
    {
      chats := chats + [GroupChat(groups[j])];
      j := j + 1;
    }
    ConcatOf(chats, contactChats, GroupChats(groups));
  }

  /** A sequence that starts with `a` and continues element by element with `b` is `a + b`. */
  lemma ConcatOf<T>(s: seq<T>, a: seq<T>, b: seq<T>)
    requires |s| == |a| + |b| && s[..|a|] == a
    requires forall k :: 0 <= k < |b| ==> s[|a| + k] == b[k]
    ensures s == a + b
  {
    forall k | 0 <= k < |s| ensures s[k] == (a + b)[k] {
      if k < |a| {
        assert s[k] == s[..|a|][k];
      } else {
        assert s[|a| + (k - |a|)] == b[k - |a|];
      }
    }
  }

  // ---------------------------------------------------------------------------
  // getChat
  // ---------------------------------------------------------------------------

  /** The participants of a group, copied in order. */
  function ParticipantsOf(ps: seq<GroupParticipant>): (r: seq<Participant>)
    ensures |r| == |ps|
    ensures forall k :: 0 <= k < |ps| ==> r[k].jid == ps[k].jid.text && r[k].isAdmin == ps[k].isAdmin
  {
    seq(|ps|, k requires 0 <= k < |ps| => Participant(ps[k].jid.text, ps[k].isAdmin))
  }

  /**
   * The chat `getChat` returns for a found contact: JID `user@server`, a group exactly
   * on the group server, the profile picture URL when one was found, and the resolved
   * name; a group whose info loads takes the group's name, topic and participants.
   */
  function ChatDetail(jid: Jid, info: ContactInfo, pfp: Result<string, GoError>, group: Result<GroupInfo, GoError>): (c: Chat)
    ensures c.jid == UserAtServer(jid)
    ensures c.isGroup <==> IsGroupJid(jid)
    ensures c.pfp == if pfp.Ok? then pfp.value else ""
    ensures c.isGroup && group.Ok? ==>
              c.name == group.value.name && c.description == group.value.topic &&
              c.participants == ParticipantsOf(group.value.participants)
    ensures !(c.isGroup && group.Ok?) ==>
              c.name == FirstNonEmpty([info.businessName, info.fullName], UserAtServer(jid)) &&
              c.description == "" && c.participants == []
  {
    ChatDetailNamePriority(jid, info);
    var base := Chat(UserAtServer(jid), ChatDetailName(jid, info), if pfp.Ok? then pfp.value else "", IsGroupJid(jid), "", []);
    if IsGroupJid(jid) && group.Ok? then
      base.(name := group.value.name, description := group.value.topic,
            participants := ParticipantsOf(group.value.participants))
    else base
  }

  /**
   * `getChat`: an unescapable client or chat ID, an unknown client, an unparsable
   * JID and a missing contact give their errors, in that order; otherwise the chat
   * details, whose participants are copied one by one.
   */
  method GetChat(m: ClientManager, clientIdParam: Result<string, GoError>, chatIdParam: Result<string, GoError>,
                 parsed: Result<Jid, GoError>, contact: Result<ContactInfo, GoError>,
                 pfp: Result<string, GoError>, group: Result<GroupInfo, GoError>)
    returns (r: Result<Chat, APIError>)
    ensures clientIdParam.Err? ==>
              r == Err(Wrap(ErrInvalidJID, Prefixed(UnescapeClientIdPrefix, clientIdParam.error)))
    ensures clientIdParam.Ok? && chatIdParam.Err? ==>
              r == Err(Wrap(ErrInvalidJID, Prefixed(UnescapeChatIdPrefix, chatIdParam.error)))
    ensures clientIdParam.Ok? && chatIdParam.Ok? && clientIdParam.value !in m.clients ==> r == Err(ErrClientNotFound)
    ensures clientIdParam.Ok? && chatIdParam.Ok? && clientIdParam.value in m.clients && parsed.Err? ==>
              r == Err(Wrap(ErrInvalidJID, Prefixed(ParseJidPrefix, parsed.error)))
    ensures clientIdParam.Ok? && chatIdParam.Ok? && clientIdParam.value in m.clients && parsed.Ok? && contact.Err? ==>
              r == Err(Wrap(ErrClientNotFound, contact.error))
    ensures clientIdParam.Ok? && chatIdParam.Ok? && clientIdParam.value in m.clients && parsed.Ok? && contact.Ok? ==>
              r == Ok(ChatDetail(parsed.value, contact.value, pfp, group))
  {
    if clientIdParam.Err? {
      return Err(Wrap(ErrInvalidJID, Prefixed(UnescapeClientIdPrefix, clientIdParam.error)));
    }
    if chatIdParam.Err? {
      return Err(Wrap(ErrInvalidJID, Prefixed(UnescapeChatIdPrefix, chatIdParam.error)));
    }
    var client := m.Get(clientIdParam.value);
    if client.None? {
      return Err(ErrClientNotFound);
    }
    if parsed.Err? {
      return Err(Wrap(ErrInvalidJID, Prefixed(ParseJidPrefix, parsed.error)));
    }
    if contact.Err? {
      return Err(Wrap(ErrClientNotFound, contact.error));
    }
    var jid := parsed.value;
    var pfpUrl := if pfp.Ok? then pfp.value else "";
    var isGroup := IsGroupJid(jid);
    var modifiedJid := UserAtServer(jid);
    var name := modifiedJid;
    if contact.value.businessName != "" {
      name := contact.value.businessName;
    } else if contact.value.fullName != "" {
      name := contact.value.fullName;
    }
    var chat := Chat(modifiedJid, name, pfpUrl, isGroup, "", []);
    if isGroup && group.Ok? {
      chat := chat.(name := group.value.name);
      if group.value.topic != "" {
        chat := chat.(description := group.value.topic);
      }
      var ps := group.value.participants;
      var i := 0;
      while i < |ps|
        invariant 0 <= i <= |ps|
        invariant chat.participants == ParticipantsOf(ps[..i])
        invariant chat.jid == modifiedJid && chat.pfp == pfpUrl && chat.isGroup
        invariant chat.name == group.value.name && chat.description == group.value.topic
      {
        chat := chat.(participants := chat.participants + [Participant(ps[i].jid.text, ps[i].isAdmin)]);
        i := i + 1;
      }
      assert ps[..i] == ps;
    }
    ChatDetailNamePriority(jid, contact.value);
    r := Ok(chat);
  }

  // ---------------------------------------------------------------------------
  // sendMessage and getMessageByID
  // ---------------------------------------------------------------------------

  /**
   * `sendMessage`: an unknown client, an undecodable body, an unparsable recipient,
   * a failed send, and an unparsable sender JID give their errors, in that order.
   * Otherwise the message stored by the send is returned with its sender JID parsed
   * and rewritten to `user@server`. The lookup of the sent message always succeeds,
   * since the send has just stored it. `parseJid` is whatsmeow's `types.ParseJID`.
   */
  method SendMessage(m: ClientManager, clientId: string, body: Result<SendMessageRequest, GoError>,
                     parseJid: string -> Result<Jid, GoError>, upstream: Result<string, GoError>, now: int)
    returns (r: Result<Message, APIError>)
    modifies m.clients.Values`messages
    ensures forall c :: c in m.clients.Values ==> c.closed == old(c.closed) && c.channel == old(c.channel)
    ensures clientId !in m.clients ==> r == Err(ErrClientNotFound)
    ensures clientId in m.clients && body.Err? ==> r == Err(Wrap(ErrInvalidRequest, body.error))
    ensures clientId in m.clients && body.Ok? && parseJid(body.value.jid).Err? ==>
              r == Err(Wrap(ErrInvalidJID, parseJid(body.value.jid).error))
    ensures clientId in m.clients && body.Ok? && parseJid(body.value.jid).Ok? && upstream.Err? ==>
              r == Err(Wrap(ErrInternalServerError, Prefixed("failed to send message: ", upstream.error)))
    ensures clientId in m.clients && body.Ok? && parseJid(body.value.jid).Ok? && upstream.Ok? ==>
              var own := m.clients[clientId].ownJid.text;
              && (parseJid(own).Err? ==> r == Err(Wrap(ErrInternalServerError, parseJid(own).error)))
              && (parseJid(own).Ok? ==>
                    r == Ok(Message(upstream.value, now, body.value.text, parseJid(body.value.jid).value.text,
                                    UserAtServer(parseJid(own).value), true)))
    ensures clientId in m.clients && body.Ok? && parseJid(body.value.jid).Ok? && upstream.Ok? ==>
              var c := m.clients[clientId];
              c.messages == old(c.messages)[upstream.value :=
                Message(upstream.value, now, body.value.text, parseJid(body.value.jid).value.text, c.ownJid.text, true)]
    ensures forall c :: c in m.clients.Values &&
                        !(clientId in m.clients && c == m.clients[clientId] && body.Ok? && parseJid(body.value.jid).Ok? && upstream.Ok?) ==>
              c.messages == old(c.messages)
  {
    var found := m.Get(clientId);
    if found.None? {
      return Err(ErrClientNotFound);
    }
    var client := found.value;
    if body.Err? {
      return Err(Wrap(ErrInvalidRequest, body.error));
    }
    var recipient := parseJid(body.value.jid);
    if recipient.Err? {
      return Err(Wrap(ErrInvalidJID, recipient.error));
    }
    var sent := client.SendTextMessage(recipient.value, body.value.text, upstream, now);
    if sent.Err? {
      return Err(Wrap(ErrInternalServerError, sent.error));
    }
    var stored := client.GetMessage(sent.value);
    if stored.None? {
      assert false;
    }
    var sender := parseJid(stored.value.senderJid);
    if sender.Err? {
      return Err(Wrap(ErrInternalServerError, sender.error));
    }
    r := Ok(stored.value.(senderJid := UserAtServer(sender.value)));
  }

  /** `getMessageByID`: unknown client, then unknown message ID, else the stored message. */
  method GetMessageById(m: ClientManager, clientId: string, messageId: string) returns (r: Result<Message, APIError>)
    ensures clientId !in m.clients ==> r == Err(ErrClientNotFound)
    ensures clientId in m.clients && messageId !in m.clients[clientId].messages ==> r == Err(ErrMessageNotFound)
    ensures clientId in m.clients && messageId in m.clients[clientId].messages ==>
              r == Ok(m.clients[clientId].messages[messageId])
  {
    var client := m.Get(clientId);
    if client.None? {
      return Err(ErrClientNotFound);
    }
    var msg := client.value.GetMessage(messageId);
    if msg.None? {
      return Err(ErrMessageNotFound);
    }
    r := Ok(msg.value);
  }

  // ---------------------------------------------------------------------------
  // The event stream
  // ---------------------------------------------------------------------------

  /** The frames opening every stream: `buffer`, then `status logged_in` when already logged in. */
  function Preamble(clientId: string, loggedIn: bool, marshal: APIEvent -> Option<string>): string {
    SendSSEEvent(clientId, "buffer", TextData(""), marshal)
    + (if loggedIn then SendSSEEvent(clientId, "status", TextData("logged_in"), marshal) else "")
  }

  /**
   * What the loop writes for the events it reads from the channel, and whether a
   * translation panicked (nothing more is written after a panic).
   */
  function StreamBody(clientId: string, events: seq<WaEvent>, marshal: APIEvent -> Option<string>): (string, Outcome)
    decreases |events|
  {
    if events == [] then ("", Returned)
    else match ToAPIEvent(events[0], clientId)
      case Panic => ("", Panicked)
      case Skip => StreamBody(clientId, events[1..], marshal)
      case Forward(e) =>
        var rest := StreamBody(clientId, events[1..], marshal);
        (SendSSEEvent(clientId, e.eventType, e.data, marshal) + rest.0, rest.1)
  }

  /** The loop's output from position `i` on, one event at a time. */
  lemma StreamBodyStep(clientId: string, events: seq<WaEvent>, i: nat, marshal: APIEvent -> Option<string>)
    requires i < |events|
    ensures ToAPIEvent(events[i], clientId).Panic? ==> StreamBody(clientId, events[i..], marshal) == ("", Panicked)
    ensures ToAPIEvent(events[i], clientId).Skip? ==>
              StreamBody(clientId, events[i..], marshal) == StreamBody(clientId, events[i + 1..], marshal)
    ensures ToAPIEvent(events[i], clientId).Forward? ==>
              var e := ToAPIEvent(events[i], clientId).event;
              var rest := StreamBody(clientId, events[i + 1..], marshal);
              StreamBody(clientId, events[i..], marshal) == (SendSSEEvent(clientId, e.eventType, e.data, marshal) + rest.0, rest.1)
  {
    assert events[i..][0] == events[i];
    assert events[i..][1..] == events[i + 1..];
  }

  /**
   * `events`: an unknown client, then a writer that cannot flush, give their errors
   * before anything is written; otherwise the preamble and a frame per forwarded
   * event are written until the channel closes or the request ends, which returns
   * nothing, or until a translation panics.
   */
  method Events(m: ClientManager, clientId: string, canFlush: bool, loggedIn: bool, incoming: seq<WaEvent>,
                marshal: APIEvent -> Option<string>)
    returns (reply: Reply<()>, written: string)
    ensures clientId !in m.clients ==> reply == Answer(Err(ErrClientNotFound)) && written == ""
    ensures clientId in m.clients && !canFlush ==>
              reply == Answer(Err(Wrap(ErrStreamingUnsupported, Plain(NotFlusher))))
              && written == ""
    ensures clientId in m.clients && canFlush ==>
              written == Preamble(clientId, loggedIn, marshal) + StreamBody(clientId, incoming, marshal).0
              && (reply == Recovered <==> StreamBody(clientId, incoming, marshal).1 == Panicked)
              && (reply != Recovered ==> reply == Answer(Ok(())))
  {
    written := "";
    var client := m.Get(clientId);
    if client.None? {
      return Answer(Err(ErrClientNotFound)), written;
    }
    if !canFlush {
      return Answer(Err(Wrap(ErrStreamingUnsupported, Plain(NotFlusher)))), written;
    }
    written := written + SendSSEEvent(clientId, "buffer", TextData(""), marshal);
    assert written == SendSSEEvent(clientId, "buffer", TextData(""), marshal);
    if loggedIn {
      written := written + SendSSEEvent(clientId, "status", TextData("logged_in"), marshal);
    } else {
      assert written == written + "";
    }
    assert written == Preamble(clientId, loggedIn, marshal);
    var panicked;
    written, panicked := StreamLoop(clientId, incoming, marshal, written);
    reply := if panicked then Recovered else Answer(Ok(()));
  }

  /**
   * The loop over the channel: each event is translated and its frame written,
   * until the channel ends or a translation panics. `written` extends what the
   * response already held.
   */
  method StreamLoop(clientId: string, incoming: seq<WaEvent>, marshal: APIEvent -> Option<string>, before: string)
    returns (written: string, panicked: bool)
    ensures written == before + StreamBody(clientId, incoming, marshal).0
    ensures panicked <==> StreamBody(clientId, incoming, marshal).1 == Panicked
  {
    written := before;
    var i := 0;
    while i < |incoming|
      invariant 0 <= i <= |incoming|
      invariant written + StreamBody(clientId, incoming[i..], marshal).0 == before + StreamBody(clientId, incoming, marshal).0
      invariant StreamBody(clientId, incoming[i..], marshal).1 == StreamBody(clientId, incoming, marshal).1
    {
      StreamBodyStep(clientId, incoming, i, marshal);
      match ToAPIEvent(incoming[i], clientId) {
        case Panic =>
          return written, true;
        case Skip =>
        case Forward(e) =>
          written := written + SendSSEEvent(clientId, e.eventType, e.data, marshal);
      }
      i := i + 1;
    }
    assert incoming[i..] == [];
    return written, false;
  }

  /** A marshaller whose output is never empty and never spans lines, as JSON text is. */
  ghost predicate OneLineJson(marshal: APIEvent -> Option<string>) {
    forall e :: marshal(e).Some? ==> marshal(e).value != "" && OneLine(marshal(e).value)
  }

  /** The events a receiver sees for the frames of one `sendSSEEvent` call. */
  function SeenOf(clientId: string, eventType: string, data: EventData, marshal: APIEvent -> Option<string>): seq<Received> {
    match marshal(APIEvent(clientId, eventType, data))
    case None => []
    case Some(json) => [Received(eventType, json)]
  }

  /** The events a receiver sees for the stream loop's output. */
  function StreamSeen(clientId: string, events: seq<WaEvent>, marshal: APIEvent -> Option<string>): seq<Received>
    decreases |events|
  {
    if events == [] then []
    else match ToAPIEvent(events[0], clientId)
      case Panic => []
      case Skip => StreamSeen(clientId, events[1..], marshal)
      case Forward(e) => SeenOf(clientId, e.eventType, e.data, marshal) + StreamSeen(clientId, events[1..], marshal)
  }

  lemma SendThenRest(clientId: string, eventType: string, data: EventData, marshal: APIEvent -> Option<string>, rest: string)
    requires OneLineJson(marshal) && eventType != "" && OneLine(eventType)
    ensures Dispatched(SendSSEEvent(clientId, eventType, data, marshal) + rest) ==
            SeenOf(clientId, eventType, data, marshal) + Dispatched(rest)
  {
    var out := marshal(APIEvent(clientId, eventType, data));
    if out.Some? {
      FrameThenRest(eventType, out.value, rest);
    } else {
      assert "" + rest == rest;
    }
  }

  /** The event types `ToAPIEvent` produces are non-empty single lines. */
  lemma ForwardedTypesOneLine(evt: WaEvent, clientId: string)
    requires ToAPIEvent(evt, clientId).Forward?
    ensures ToAPIEvent(evt, clientId).event.eventType != "" && OneLine(ToAPIEvent(evt, clientId).event.eventType)
  {
    var t := ToAPIEvent(evt, clientId).event.eventType;
    assert t == "qr_code" || t == "message" || t == "status";
  }

  lemma {:induction false} StreamDispatched(clientId: string, events: seq<WaEvent>, marshal: APIEvent -> Option<string>, rest: string)
    requires OneLineJson(marshal)
    ensures Dispatched(StreamBody(clientId, events, marshal).0 + rest) == StreamSeen(clientId, events, marshal) + Dispatched(rest)
    decreases |events|
  {
    if events != [] {
      match ToAPIEvent(events[0], clientId) {
        case Panic =>
          assert "" + rest == rest;
        case Skip =>
          StreamDispatched(clientId, events[1..], marshal, rest);
        case Forward(e) =>
          StreamDispatched(clientId, events[1..], marshal, rest);
          ForwardThenRest(clientId, events, marshal, rest);
      }
    } else {
      assert "" + rest == rest;
    }
  }

  /** A forwarded first event is read first, then what the rest of the loop's output yields. */
  lemma ForwardThenRest(clientId: string, events: seq<WaEvent>, marshal: APIEvent -> Option<string>, rest: string)
    requires OneLineJson(marshal) && events != [] && ToAPIEvent(events[0], clientId).Forward?
    requires Dispatched(StreamBody(clientId, events[1..], marshal).0 + rest) ==
             StreamSeen(clientId, events[1..], marshal) + Dispatched(rest)
    ensures Dispatched(StreamBody(clientId, events, marshal).0 + rest) == StreamSeen(clientId, events, marshal) + Dispatched(rest)
  {
    var e := ToAPIEvent(events[0], clientId).event;
    ForwardedTypesOneLine(events[0], clientId);
    var tail := StreamBody(clientId, events[1..], marshal).0;
    var frame := SendSSEEvent(clientId, e.eventType, e.data, marshal);
    assert StreamBody(clientId, events, marshal).0 + rest == frame + (tail + rest);
    SendThenRest(clientId, e.eventType, e.data, marshal, tail + rest);
    var seen := SeenOf(clientId, e.eventType, e.data, marshal);
    assert seen + (StreamSeen(clientId, events[1..], marshal) + Dispatched(rest)) ==
           (seen + StreamSeen(clientId, events[1..], marshal)) + Dispatched(rest);
  }

  /**
   * A receiver of a stream that opened successfully sees the `buffer` event, then
   * `status` when already logged in, then the forwarded events in channel order;
   * an event whose marshalling failed is simply absent.
   */
  lemma EventsBodyDispatched(clientId: string, loggedIn: bool, events: seq<WaEvent>, marshal: APIEvent -> Option<string>)
    requires OneLineJson(marshal)
    ensures Dispatched(Preamble(clientId, loggedIn, marshal) + StreamBody(clientId, events, marshal).0) ==
            SeenOf(clientId, "buffer", TextData(""), marshal)
            + (if loggedIn then SeenOf(clientId, "status", TextData("logged_in"), marshal) else [])
            + StreamSeen(clientId, events, marshal)
  {
    assert "buffer" != "" && OneLine("buffer") && "status" != "" && OneLine("status");
    BodyDispatched(clientId, events, marshal);
    TwoFramesThenBody(clientId, "buffer", TextData(""), loggedIn, "status", TextData("logged_in"), marshal,
                      StreamBody(clientId, events, marshal).0);
  }

  /** A frame, optionally a second frame, and then more output read as their events followed by the rest's. */
  lemma TwoFramesThenBody(clientId: string, t1: string, d1: EventData, second: bool, t2: string, d2: EventData,
                          marshal: APIEvent -> Option<string>, body: string)
    requires OneLineJson(marshal)
    requires t1 != "" && OneLine(t1) && t2 != "" && OneLine(t2)
    ensures Dispatched(SendSSEEvent(clientId, t1, d1, marshal)
                       + (if second then SendSSEEvent(clientId, t2, d2, marshal) else "") + body) ==
            SeenOf(clientId, t1, d1, marshal) + (if second then SeenOf(clientId, t2, d2, marshal) else [])
            + Dispatched(body)
  {
    var first := SendSSEEvent(clientId, t1, d1, marshal);
    var next := if second then SendSSEEvent(clientId, t2, d2, marshal) else "";
    var nextSeen := if second then SeenOf(clientId, t2, d2, marshal) else [];
    assert first + next + body == first + (next + body);
    assert Dispatched(next + body) == nextSeen + Dispatched(body) by {
      if second {
        SendThenRest(clientId, t2, d2, marshal, body);
      } else {
        assert next + body == body;
      }
    }
    SendThenRest(clientId, t1, d1, marshal, next + body);
  }

  /** The stream loop's output on its own reads as the forwarded events. */
  lemma BodyDispatched(clientId: string, events: seq<WaEvent>, marshal: APIEvent -> Option<string>)
    requires OneLineJson(marshal)
    ensures Dispatched(StreamBody(clientId, events, marshal).0) == StreamSeen(clientId, events, marshal)
  {
    var body := StreamBody(clientId, events, marshal).0;
    StreamDispatched(clientId, events, marshal, "");
    assert body + "" == body;
    assert Lines("") == [""];
    assert Dispatched("") == [];
  }

  // ---------------------------------------------------------------------------
  // disconnect
  // ---------------------------------------------------------------------------

  /**
   * `disconnect` as written: closes the client's channel, then deregisters it. When
   * the channel is already closed (the event handler closes it on a disconnection
   * or logout), `Close` panics, the Recoverer answers 500, and the client stays
   * registered.
   */
  method Disconnect(m: ClientManager, clientId: string) returns (reply: Reply<string>)
    modifies m, m.clients.Values`closed
    ensures forall c :: c in old(m.clients).Values ==> c.messages == old(c.messages) && c.channel == old(c.channel)
    ensures forall c :: c in old(m.clients).Values && (clientId !in old(m.clients) || c != old(m.clients)[clientId]) ==>
              c.closed == old(c.closed)
    ensures clientId !in old(m.clients) ==> reply == Answer(Err(ErrClientNotFound)) && m.clients == old(m.clients)
    ensures clientId in old(m.clients) ==> old(m.clients)[clientId].closed
    ensures clientId in old(m.clients) && old(m.clients[clientId].closed) ==> reply == Recovered && m.clients == old(m.clients)
    ensures clientId in old(m.clients) && !old(m.clients[clientId].closed) ==>
              reply == Answer(Ok(DisconnectedText)) && m.clients == old(m.clients) - {clientId}
  {
    var client := m.Get(clientId);
    if client.None? {
      return Answer(Err(ErrClientNotFound));
    }
    var outcome := client.value.Close();
    if outcome == Panicked {
      return Recovered;
    }
    m.Remove(clientId);
    reply := Answer(Ok(DisconnectedText));
  }

  /** A logout followed by a disconnect request: the request panics and the client is never removed. */
  method LogoutThenDisconnect(clientId: string, own: Jid) returns (reply: Reply<string>, stillRegistered: bool)
    ensures reply == Recovered && stillRegistered
  {
    var m := new ClientManager();
    var client := new WhatsappClient(own);
    m.Add(clientId, client);
    var handled := client.EventHandler(LoggedOutEvent);
    assert client.closed;
    reply := Disconnect(m, clientId);
    stillRegistered := clientId in m.clients;
  }

  /**
   * `disconnect` with the channel closed at most once: a registered client is always
   * deregistered and the request succeeds, whether or not its channel was closed
   * already.
   */
  method DisconnectClosingOnce(m: ClientManager, clientId: string) returns (reply: Reply<string>)
    modifies m, m.clients.Values`closed
    ensures forall c :: c in old(m.clients).Values ==> c.messages == old(c.messages) && c.channel == old(c.channel)
    ensures forall c :: c in old(m.clients).Values && (clientId !in old(m.clients) || c != old(m.clients)[clientId]) ==>
              c.closed == old(c.closed)
    ensures clientId !in m.clients
    ensures clientId !in old(m.clients) ==> reply == Answer(Err(ErrClientNotFound)) && m.clients == old(m.clients)
    ensures clientId in old(m.clients) ==>
              reply == Answer(Ok(DisconnectedText)) && m.clients == old(m.clients) - {clientId}
              && old(m.clients)[clientId].closed
  {
    var client := m.Get(clientId);
    if client.None? {
      return Answer(Err(ErrClientNotFound));
    }
    if !client.value.closed {
      var outcome := client.value.Close();
    }
    m.Remove(clientId);
    reply := Answer(Ok(DisconnectedText));
  }

  /** With the corrected handler, a logout followed by a disconnect request succeeds and deregisters the client. */
  method LogoutThenDisconnectClosingOnce(clientId: string, own: Jid) returns (reply: Reply<string>, stillRegistered: bool)
    ensures reply == Answer(Ok(DisconnectedText)) && !stillRegistered
  {
    var m := new ClientManager();
    var client := new WhatsappClient(own);
    m.Add(clientId, client);
    var handled := client.EventHandler(LoggedOutEvent);
    reply := DisconnectClosingOnce(m, clientId);
    stillRegistered := clientId in m.clients;
  }
}
