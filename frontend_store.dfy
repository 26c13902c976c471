/**
 * The message map of the `frontend` client (frontend/src/lib/atoms.ts): a JS `Map`
 * from chat JID to the list of that chat's messages, updated through Immer drafts.
 * A JS `Map` iterates its keys in insertion order; `order` records that order, and
 * setting an existing key keeps its place.
 *
 * The two updates the client makes are `draft.get(chat)!.push(msg)` and
 * `draft.set(chat, [msg])`; which one runs depends on whether the map the caller
 * consulted has the chat. Both callers consult a map captured earlier, so that
 * answer may be stale.
 */
module FrontendStore {
  import opened GoModels

  /** The value of the message map: the lists by chat JID and the key order. */
  datatype MapState = MapState(lists: map<string, seq<Message>>, order: seq<string>)

  /** The initial value, `new Map()`. */
  const Empty := MapState(map[], [])

  /** The key order lists each key of the map exactly once. */
  ghost predicate WellFormed(s: MapState) {
    (forall i, j :: 0 <= i < j < |s.order| ==> s.order[i] != s.order[j]) &&
    (forall k :: k in s.lists <==> k in s.order)
  }

  /** The list held for `chat`, empty when there is none. */
  function ListOf(s: MapState, chat: string): seq<Message> {
    if chat in s.lists then s.lists[chat] else []
  }

  /**
   * `draft.get(chat)!.push(msg)`. For a missing chat the recipe throws, and Immer
   * leaves the state as it was.
   */
  function Pushed(s: MapState, chat: string, msg: Message): MapState {
    if chat in s.lists then MapState(s.lists[chat := s.lists[chat] + [msg]], s.order) else s
  }

  /** `draft.set(chat, list)`: a new key goes last in the order; an existing key keeps its place. */
  function SetTo(s: MapState, chat: string, list: seq<Message>): MapState {
    MapState(s.lists[chat := list], if chat in s.lists then s.order else s.order + [chat])
  }

  /**
   * Recording a received or sent message: push onto its chat's list when the
   * consulted map has the chat (`known`), otherwise set the chat to `[msg]`.
   */
  function Recorded(s: MapState, known: bool, msg: Message): MapState {
    if known then Pushed(s, msg.chatJid, msg) else SetTo(s, msg.chatJid, [msg])
  }

  /** Recording keeps the key order consistent with the map, whatever was consulted. */
  lemma RecordedWellFormed(s: MapState, known: bool, msg: Message)
    requires WellFormed(s)
    ensures WellFormed(Recorded(s, known, msg))
  {
    var r := Recorded(s, known, msg);
    if !known && msg.chatJid !in s.lists {
      forall i, j | 0 <= i < j < |r.order| ensures r.order[i] != r.order[j] {
        if j == |s.order| {
          assert r.order[i] == s.order[i];
          assert s.order[i] in s.lists;
        }
      }
    }
  }

  /**
   * Recording while consulting the current map: the message's chat gains it at the
   * end of its list (a new chat gets the one-element list and goes last in the key
   * order); every other chat keeps its list; the key order is otherwise unchanged.
   */
  lemma RecordedCurrent(s: MapState, msg: Message)
    requires WellFormed(s)
    ensures var r := Recorded(s, msg.chatJid in s.lists, msg);
            ListOf(r, msg.chatJid) == ListOf(s, msg.chatJid) + [msg] &&
            (forall c :: c != msg.chatJid ==> ListOf(r, c) == ListOf(s, c)) &&
            r.order == if msg.chatJid in s.lists then s.order else s.order + [msg.chatJid]
  {
  }

  /** Recording after consulting a map that lacks an existing chat replaces that chat's whole list. */
  lemma RecordedStale(s: MapState, msg: Message)
    requires msg.chatJid in s.lists
    ensures Recorded(s, false, msg).lists[msg.chatJid] == [msg]
    ensures Recorded(s, false, msg).order == s.order
  {
  }

  /** There is no deduplication: recording the same message twice for a known chat keeps both copies. */
  lemma NoDedup(s: MapState, msg: Message)
    requires msg.chatJid in s.lists
    ensures Recorded(Recorded(s, true, msg), true, msg).lists[msg.chatJid] == s.lists[msg.chatJid] + [msg, msg]
  {
    assert s.lists[msg.chatJid] + [msg] + [msg] == s.lists[msg.chatJid] + [msg, msg];
  }

  /** The messages of `msgs` for `chat`, in order. */
  function MessagesTo(msgs: seq<Message>, chat: string): seq<Message> {
    if msgs == [] then []
    else
      var n := |msgs| - 1;
      MessagesTo(msgs[..n], chat) + (if msgs[n].chatJid == chat then [msgs[n]] else [])
  }

  /** Delivering messages in order, each consulting the map as it is at that moment. */
  function DeliverAll(s: MapState, msgs: seq<Message>): MapState {
    if msgs == [] then s
    else
      var n := |msgs| - 1;
      var before := DeliverAll(s, msgs[..n]);
      Recorded(before, msgs[n].chatJid in before.lists, msgs[n])
  }

  /**
   * Delivering messages in order, each consulting the keys the map had when the
   * event listener was registered (`snapshot`).
   */
  function DeliverAsWritten(s: MapState, snapshot: set<string>, msgs: seq<Message>): MapState {
    if msgs == [] then s
    else
      var n := |msgs| - 1;
      Recorded(DeliverAsWritten(s, snapshot, msgs[..n]), msgs[n].chatJid in snapshot, msgs[n])
  }

  /** Consulting the current map, every chat's list is its old list followed by the messages delivered to it. */
  lemma {:induction false} DeliverAllKeepsEverything(s: MapState, msgs: seq<Message>)
    requires WellFormed(s)
    ensures WellFormed(DeliverAll(s, msgs))
    ensures forall c :: ListOf(DeliverAll(s, msgs), c) == ListOf(s, c) + MessagesTo(msgs, c)
  {
    if msgs == [] {
      forall c ensures ListOf(s, c) + MessagesTo(msgs, c) == ListOf(s, c) {
        assert MessagesTo(msgs, c) == [];
      }
    } else {
      var n := |msgs| - 1;
      var before := DeliverAll(s, msgs[..n]);
      DeliverAllKeepsEverything(s, msgs[..n]);
      DeliverStep(s, before, msgs[..n], msgs[n]);
      assert msgs[..n] + [msgs[n]] == msgs;
    }
  }

  /** One delivery consulting the current map extends the delivered messages of its chat only. */
  lemma DeliverStep(s: MapState, before: MapState, prefix: seq<Message>, m: Message)
    requires WellFormed(before)
    requires forall c :: ListOf(before, c) == ListOf(s, c) + MessagesTo(prefix, c)
    ensures WellFormed(Recorded(before, m.chatJid in before.lists, m))
    ensures forall c :: ListOf(Recorded(before, m.chatJid in before.lists, m), c) == ListOf(s, c) + MessagesTo(prefix + [m], c)
  {
    RecordedWellFormed(before, m.chatJid in before.lists, m);
    var after := Recorded(before, m.chatJid in before.lists, m);
    forall c ensures ListOf(after, c) == ListOf(s, c) + MessagesTo(prefix + [m], c) {
      RecordedCurrent(before, m);
      MessagesToSnoc(prefix, m, c);
      if c == m.chatJid {
        assert ListOf(s, c) + MessagesTo(prefix, c) + [m] == ListOf(s, c) + (MessagesTo(prefix, c) + [m]);
      } else {
        assert MessagesTo(prefix, c) + [] == MessagesTo(prefix, c);
      }
    }
  }

  /** The messages for a chat after one more delivery. */
  lemma MessagesToSnoc(prefix: seq<Message>, m: Message, c: string)
    ensures MessagesTo(prefix + [m], c) == MessagesTo(prefix, c) + (if m.chatJid == c then [m] else [])
  {
    assert (prefix + [m])[..|prefix|] == prefix;
  }

  /** Recording never removes a chat. */
  lemma RecordedKeepsKeys(s: MapState, known: bool, msg: Message)
    ensures s.lists.Keys <= Recorded(s, known, msg).lists.Keys
  {
  }

  /**
   * As written, a chat present both when the listener was registered and at the
   * start is handled correctly: its list gains every message delivered to it.
   */
  lemma {:induction false} DeliverAsWrittenKnown(s: MapState, snapshot: set<string>, msgs: seq<Message>, c: string)
    requires c in snapshot && c in s.lists
    ensures c in DeliverAsWritten(s, snapshot, msgs).lists
    ensures ListOf(DeliverAsWritten(s, snapshot, msgs), c) == s.lists[c] + MessagesTo(msgs, c)
  {
    if msgs == [] {
      assert s.lists[c] + [] == s.lists[c];
    } else {
      var n := |msgs| - 1;
      var m := msgs[n];
      var before := DeliverAsWritten(s, snapshot, msgs[..n]);
      DeliverAsWrittenKnown(s, snapshot, msgs[..n], c);
      RecordedKeepsKeys(before, m.chatJid in snapshot, m);
      if m.chatJid == c {
        assert s.lists[c] + MessagesTo(msgs[..n], c) + [m] == s.lists[c] + (MessagesTo(msgs[..n], c) + [m]);
      } else {
        assert MessagesTo(msgs, c) == MessagesTo(msgs[..n], c) + [];
        assert MessagesTo(msgs[..n], c) + [] == MessagesTo(msgs[..n], c);
      }
    }
  }

  /**
   * As written, a chat absent from the snapshot keeps only the last message
   * delivered to it: every delivery sets its list to one element, discarding
   * what the map held.
   */
  lemma {:induction false} DeliverAsWrittenStale(s: MapState, snapshot: set<string>, msgs: seq<Message>, c: string)
    requires c !in snapshot && MessagesTo(msgs, c) != []
    ensures ListOf(DeliverAsWritten(s, snapshot, msgs), c) == [MessagesTo(msgs, c)[|MessagesTo(msgs, c)| - 1]]
  {
    var n := |msgs| - 1;
    var m := msgs[n];
    if m.chatJid != c {
      assert MessagesTo(msgs, c) == MessagesTo(msgs[..n], c) + [];
      assert MessagesTo(msgs[..n], c) + [] == MessagesTo(msgs[..n], c);
      DeliverAsWrittenStale(s, snapshot, msgs[..n], c);
    }
  }

  /**
   * The lost message: two messages to a chat that was not in the map when the
   * listener was registered leave only the second, while consulting the current
   * map keeps both.
   */
  lemma StaleSnapshotLosesMessage(m1: Message, m2: Message)
    requires m1.chatJid == m2.chatJid
    ensures DeliverAsWritten(Empty, {}, [m1, m2]).lists[m1.chatJid] == [m2]
    ensures DeliverAll(Empty, [m1, m2]).lists[m1.chatJid] == [m1, m2]
  {
    assert [m1, m2][..1] == [m1];
    assert [m1][..0] == [];
    assert DeliverAll(Empty, [m1][..0]) == Empty;
    var first := DeliverAll(Empty, [m1]);
    assert first == SetTo(Empty, m1.chatJid, [m1]);
    assert first.lists == map[m1.chatJid := [m1]];
    assert [m1] + [m2] == [m1, m2];
  }

  /** The message map atom, updated in place through Immer drafts. */
  class MessageMap {
    /** The lists by chat JID. */
    var lists: map<string, seq<Message>>
    /** The keys in insertion order. */
    var order: seq<string>

    /** The map as a value. */
    function State(): MapState
      reads this
    {
      MapState(lists, order)
    }

    /** `new Map()`. */
    constructor ()
      ensures State() == Empty
    {
      lists := map[];
      order := [];
    }

    /** `draft.get(chat)!.push(msg)`; a missing chat throws and the map is left as it was. */
    method Push(chat: string, msg: Message)
      modifies this
      ensures State() == Pushed(old(State()), chat, msg)
    {
      if chat in lists {
        lists := lists[chat := lists[chat] + [msg]];
      }
    }

    /** `draft.set(chat, list)`. */
    method Set(chat: string, list: seq<Message>)
      modifies this
      ensures State() == SetTo(old(State()), chat, list)
    {
      if chat !in lists {
        order := order + [chat];
      }
      lists := lists[chat := list];
    }

    /** The `has`/`push`/`set` branch the client writes, with `known` the consulted map's answer. */
    method Record(known: bool, msg: Message)
      modifies this
      ensures State() == Recorded(old(State()), known, msg)
    {
      if known {
        Push(msg.chatJid, msg);
      } else {
        Set(msg.chatJid, [msg]);
      }
    }
  }
}
