/**
 * The open chat of the `frontend` client (frontend/src/components/layout/chat.tsx):
 * the sender-grouping flags of the message bubbles, and the send form, which
 * records the sent message in the message map and clears its input once the
 * send settles.
 */
module ChatView {
  import opened Wrappers
  import opened GoModels
  import opened FrontendStore
  import opened JsText

  /** `isFirstInGroup`: no previous message, or the previous one has another sender. */
  predicate IsFirstInGroup(chat: seq<Message>, i: int)
    requires 0 <= i < |chat|
  {
    i == 0 || chat[i - 1].senderJid != chat[i].senderJid
  }

  /** `isLastInGroup`: no next message, or the next one has another sender. */
  predicate IsLastInGroup(chat: seq<Message>, i: int)
    requires 0 <= i < |chat|
  {
    i == |chat| - 1 || chat[i + 1].senderJid != chat[i].senderJid
  }

  /** A bubble ends its run exactly when the next bubble starts one. */
  lemma LastIffNextFirst(chat: seq<Message>, i: int)
    requires 0 <= i && i + 1 < |chat|
    ensures IsLastInGroup(chat, i) <==> IsFirstInGroup(chat, i + 1)
  {
  }

  /** A one-message chat's bubble is both first and last; one with same-sender neighbours is neither. */
  lemma GroupEdges(chat: seq<Message>, i: int)
    requires 0 <= i < |chat|
    ensures |chat| == 1 ==> IsFirstInGroup(chat, i) && IsLastInGroup(chat, i)
    ensures 0 < i < |chat| - 1 && chat[i - 1].senderJid == chat[i].senderJid == chat[i + 1].senderJid ==>
              !IsFirstInGroup(chat, i) && !IsLastInGroup(chat, i)
  {
  }

  /** The number of bubbles among the first `n` that start a run. */
  function CountFirst(chat: seq<Message>, n: nat): nat
    requires n <= |chat|
  {
    if n == 0 then 0 else CountFirst(chat, n - 1) + (if IsFirstInGroup(chat, n - 1) then 1 else 0)
  }

  /** The number of bubbles among the first `n` that end a run. */
  function CountLast(chat: seq<Message>, n: nat): nat
    requires n <= |chat|
  {
    if n == 0 then 0 else CountLast(chat, n - 1) + (if IsLastInGroup(chat, n - 1) then 1 else 0)
  }

  lemma {:induction false} CountLastBehind(chat: seq<Message>, n: nat)
    requires 0 < n < |chat|
    ensures CountLast(chat, n) + 1 == CountFirst(chat, n + 1)
  {
    LastIffNextFirst(chat, n - 1);
    if n > 1 {
      CountLastBehind(chat, n - 1);
    } else {
      assert CountFirst(chat, 1) == 1;
    }
  }

  /** Every run of same-sender bubbles has one first and one last bubble: the two flags are equally many. */
  lemma RunsBalanced(chat: seq<Message>)
    ensures CountFirst(chat, |chat|) == CountLast(chat, |chat|)
  {
    if |chat| > 1 {
      CountLastBehind(chat, |chat| - 1);
    }
  }

  /** The `Chat` component's state: its chat, the shared message map, and the input text. */
  class ChatView {
    /** The `chatId` prop. */
    const chatId: string
    /** `messageMapAtom`. */
    const store: MessageMap
    /** `inputValue`. */
    var inputValue: string

    /** The first render: an empty input. */
    constructor (chatId: string, store: MessageMap)
      ensures this.chatId == chatId && this.store == store && inputValue == ""
    {
      this.chatId := chatId;
      this.store := store;
      inputValue := "";
    }

    /** The input's `onChange`. */
    method SetInput(value: string)
      modifies this`inputValue
      ensures inputValue == value
    {
      inputValue := value;
    }

    /**
     * The form's `onSubmit`. A blank input or an empty chat ID sends nothing and
     * changes nothing. Otherwise `{jid: chatId, text: inputValue}` is sent, untrimmed;
     * the input is cleared when the send settles, whether it succeeded or not; on
     * success the returned message is recorded, consulting the keys of the map this
     * render saw (`renderedKeys`). `sent` is the send's result, None when it failed.
     */
    method Submit(renderedKeys: set<string>, sent: Option<Message>) returns (request: Option<SendMessageRequest>)
      modifies this`inputValue, store
      ensures Trim(old(inputValue)) == [] || chatId == "" ==>
                request == None && inputValue == old(inputValue) && store.State() == old(store.State())
      ensures Trim(old(inputValue)) != [] && chatId != "" ==>
                request == Some(SendMessageRequest(chatId, old(inputValue))) && inputValue == ""
      ensures Trim(old(inputValue)) != [] && chatId != "" && sent.Some? ==>
                store.State() == Recorded(old(store.State()), sent.value.chatJid in renderedKeys, sent.value)
      ensures Trim(old(inputValue)) != [] && chatId != "" && sent.None? ==> store.State() == old(store.State())
    {
      if Trim(inputValue) == [] || chatId == "" {
        return None;
      }
      request := Some(SendMessageRequest(chatId, inputValue));
      inputValue := "";
      if sent.Some? {
        store.Record(sent.value.chatJid in renderedKeys, sent.value);
      }
    }
  }

  /**
   * Submitting blank input in a known chat leaves both the input and the map as they
   * were; submitting text clears the input and, on success, adds the sent message at
   * the end of its chat.
   */
  method SubmitScenario(chatId: string, text: string, reply: Message) returns (blankRequest: Option<SendMessageRequest>,
                                                                              request: Option<SendMessageRequest>,
                                                                              input: string, kept: seq<Message>)
    requires chatId != "" && Trim(text) != [] && reply.chatJid == chatId
    ensures blankRequest == None
    ensures request == Some(SendMessageRequest(chatId, text)) && input == ""
    ensures kept == [reply]
  {
    var store := new MessageMap();
    var view := new ChatView(chatId, store);
    view.SetInput(" \n");
    assert Trim(" \n") == [] by {
      TrimCharacterised(" \n");
      assert Blank(" \n");
    }
    blankRequest := view.Submit({}, Some(reply));
    view.SetInput(text);
    request := view.Submit({}, Some(reply));
    input := view.inputValue;
    kept := store.lists[chatId];
  }
}
