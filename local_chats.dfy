/**
 * The chat list of the `frontend` client (frontend/src/hooks/use-whatsapp-local-chats.ts):
 * one item per key of the message map, in key order, each taken from the last
 * message of its list by position.
 */
module LocalChats {
  import opened GoModels
  import opened FrontendStore

  /** `ChatItem`. */
  datatype ChatItem = ChatItem(id: string, name: string, lastMessageBody: string, timestamp: int)

  /** Every list in the map holds at least one message, as indexing its last element demands. */
  ghost predicate AllNonEmpty(s: MapState) {
    forall c :: c in s.lists ==> s.lists[c] != []
  }

  /** The item for chat `id`, from the last message of its list. */
  function ItemOf(id: string, msgs: seq<Message>): ChatItem
    requires msgs != []
  {
    var last := msgs[|msgs| - 1];
    ChatItem(id, last.chatJid, last.text, last.timestamp)
  }

  /** The items for `keys`, in order. */
  function ItemsOf(keys: seq<string>, lists: map<string, seq<Message>>): (r: seq<ChatItem>)
    requires forall i :: 0 <= i < |keys| ==> keys[i] in lists && lists[keys[i]] != []
    ensures |r| == |keys|
    ensures forall i :: 0 <= i < |keys| ==> r[i] == ItemOf(keys[i], lists[keys[i]])
  {
    if keys == [] then [] else [ItemOf(keys[0], lists[keys[0]])] + ItemsOf(keys[1..], lists)
  }

  /** `useLocalChats`. */
  function Items(s: MapState): seq<ChatItem>
    requires WellFormed(s) && AllNonEmpty(s)
  {
    assert forall i :: 0 <= i < |s.order| ==> s.order[i] in s.lists;
    ItemsOf(s.order, s.lists)
  }

  /** The IDs of a list of items. */
  function IdsOf(items: seq<ChatItem>): (r: seq<string>)
    ensures |r| == |items| && forall i :: 0 <= i < |items| ==> r[i] == items[i].id
  {
    seq(|items|, i requires 0 <= i < |items| => items[i].id)
  }

  /**
   * There is exactly one item per chat of the map, in key insertion order; each
   * item's name is the chat JID of its list's last message, and its body and time
   * are that message's, by position rather than by latest timestamp.
   */
  lemma ItemsCharacterised(s: MapState)
    requires WellFormed(s) && AllNonEmpty(s)
    ensures IdsOf(Items(s)) == s.order
    ensures forall c :: c in s.lists <==> c in IdsOf(Items(s))
    ensures forall i, j :: 0 <= i < j < |Items(s)| ==> Items(s)[i].id != Items(s)[j].id
    ensures forall i :: 0 <= i < |Items(s)| ==>
              var list := s.lists[Items(s)[i].id];
              Items(s)[i].name == list[|list| - 1].chatJid &&
              Items(s)[i].lastMessageBody == list[|list| - 1].text &&
              Items(s)[i].timestamp == list[|list| - 1].timestamp
  {
    assert IdsOf(Items(s)) == s.order;
  }

  /** Recording a message, with any answer the client can get, keeps every list non-empty. */
  lemma RecordedNonEmpty(s: MapState, known: bool, msg: Message)
    requires AllNonEmpty(s)
    ensures AllNonEmpty(Recorded(s, known, msg))
  {
  }

  /**
   * After a message is recorded for a chat (pushed onto an existing list, or set as a
   * new one-element list, stale or not) that chat's item shows that message, every
   * other item is unchanged, and a new chat's item comes last.
   */
  lemma ItemsAfterRecord(s: MapState, known: bool, msg: Message)
    requires WellFormed(s) && AllNonEmpty(s)
    requires known ==> msg.chatJid in s.lists
    ensures WellFormed(Recorded(s, known, msg)) && AllNonEmpty(Recorded(s, known, msg))
    ensures var before := Items(s);
            var after := Items(Recorded(s, known, msg));
            var item := ChatItem(msg.chatJid, msg.chatJid, msg.text, msg.timestamp);
            (msg.chatJid !in s.lists ==> after == before + [item]) &&
            (msg.chatJid in s.lists ==>
               |after| == |before| &&
               forall i :: 0 <= i < |after| ==> after[i] == if before[i].id == msg.chatJid then item else before[i])
  {
    RecordedWellFormed(s, known, msg);
    RecordedNonEmpty(s, known, msg);
    if msg.chatJid !in s.lists {
      ItemsAfterRecordNew(s, known, msg);
    } else {
      ItemsAfterRecordExisting(s, known, msg);
    }
  }

  /** A message for a chat the map lacks appends that chat's item. */
  lemma ItemsAfterRecordNew(s: MapState, known: bool, msg: Message)
    requires WellFormed(s) && AllNonEmpty(s)
    requires known ==> msg.chatJid in s.lists
    requires msg.chatJid !in s.lists
    requires WellFormed(Recorded(s, known, msg)) && AllNonEmpty(Recorded(s, known, msg))
    ensures Items(Recorded(s, known, msg)) == Items(s) + [ChatItem(msg.chatJid, msg.chatJid, msg.text, msg.timestamp)]
  {
    var r := Recorded(s, known, msg);
    var before := Items(s);
    var after := Items(r);
    assert r.order == s.order + [msg.chatJid];
    assert after[|before|] == ChatItem(msg.chatJid, msg.chatJid, msg.text, msg.timestamp);
  }

  /** A message for a chat the map has replaces only that chat's item. */
  lemma ItemsAfterRecordExisting(s: MapState, known: bool, msg: Message)
    requires WellFormed(s) && AllNonEmpty(s)
    requires msg.chatJid in s.lists
    requires WellFormed(Recorded(s, known, msg)) && AllNonEmpty(Recorded(s, known, msg))
    ensures var before := Items(s);
            var after := Items(Recorded(s, known, msg));
            var item := ChatItem(msg.chatJid, msg.chatJid, msg.text, msg.timestamp);
            |after| == |before| &&
            forall i :: 0 <= i < |after| ==> after[i] == if before[i].id == msg.chatJid then item else before[i]
  {
    var c := msg.chatJid;
    var list := if known then s.lists[c] + [msg] else [msg];
    var r := Recorded(s, known, msg);
    assert r.lists == s.lists[c := list] && r.order == s.order;
    ItemsOfReplace(s, r, c, list);
    assert list[|list| - 1] == msg;
  }

  /** Replacing one chat's (non-empty) list changes that chat's item only. */
  lemma ItemsOfReplace(s: MapState, r: MapState, c: string, list: seq<Message>)
    requires WellFormed(s) && AllNonEmpty(s) && WellFormed(r) && AllNonEmpty(r)
    requires c in s.lists && list != []
    requires r.lists == s.lists[c := list] && r.order == s.order
    ensures |Items(r)| == |Items(s)|
    ensures forall i :: 0 <= i < |Items(r)| ==>
              Items(r)[i] == if Items(s)[i].id == c then ItemOf(c, list) else Items(s)[i]
  {
    forall i | 0 <= i < |Items(r)|
      ensures Items(r)[i] == if Items(s)[i].id == c then ItemOf(c, list) else Items(s)[i]
    {
      var k := s.order[i];
      assert k in s.order;
      assert k in s.lists;
      if k != c {
        assert r.lists[k] == s.lists[k];
      }
    }
  }
}
