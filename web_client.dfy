/**
 * The single-page client component of the web front end
 * (apps/web/src/routes/whatsapp/-components/whatsapp-client.tsx): its own message
 * array, the selected chat, the text input, and the send handler.
 */
module WebClient {
  import opened Wrappers
  import opened WebJs
  import opened JsText
  import opened WebMessages

  /** The input of the `sendMessage` procedure. */
  datatype SendRequest = SendRequest(to: string, body: string)

  /**
   * The guard of `handleSendMessage`: blank text, or a selection that is null or
   * empty, sends nothing; otherwise the untrimmed text goes to the selected chat.
   */
  function SendRequestFor(inputValue: string, selectedChatId: Option<string>): (r: Option<SendRequest>)
    ensures r.None? <==> Blank(inputValue) || selectedChatId.None? || selectedChatId.value == ""
    ensures r.Some? ==> r.value.to == selectedChatId.value && r.value.body == inputValue
  {
    TrimCharacterised(inputValue);
    if Trim(inputValue) == [] || selectedChatId.None? || selectedChatId.value == "" then None
    else Some(SendRequest(selectedChatId.value, inputValue))
  }

  class WhatsappClientView {
    /** `messages`: everything received on the stream, deduplicated by `id.id`. */
    var messages: seq<Message>
    /** `selectedChatId`. */
    var selectedChatId: Option<string>
    /** `inputValue`. */
    var inputValue: string

    constructor ()
      ensures messages == [] && selectedChatId == None && inputValue == ""
    {
      messages := [];
      selectedChatId := None;
      inputValue := "";
    }

    /** The effect on new stream data, merged exactly as the shared hook does. */
    method OnLiveData(data: Option<Message>)
      modifies this`messages
      ensures data.None? ==> messages == old(messages)
      ensures data.Some? ==> messages == Merge(old(messages), data.value)
      ensures UniqueIds(old(messages)) ==> UniqueIds(messages)
    {
      if data.Some? {
        if UniqueIds(messages) {
          MergeKeepsIdsUnique(messages, data.value);
        }
        messages := Merge(messages, data.value);
      }
    }

    /** Clicking a row of the chat list selects that chat. */
    method SelectChat(id: string)
      modifies this`selectedChatId
      ensures selectedChatId == Some(id)
    {
      selectedChatId := Some(id);
    }

    /** Editing the input field. */
    method SetInput(value: string)
      modifies this`inputValue
      ensures inputValue == value
    {
      inputValue := value;
    }

    /** `filteredMessages`: exactly the stored messages of the selected chat, in arrival order. */
    function FilteredMessages(): (r: seq<Message>)
      reads this
      ensures forall x :: x in r ==> x in messages && selectedChatId == Some(x.id.remote)
      ensures forall k :: 0 <= k < |messages| ==> (messages[k] in r <==> selectedChatId == Some(messages[k].id.remote))
      ensures forall x :: multiset(r)[x] == if selectedChatId == Some(x.id.remote) then multiset(messages)[x] else 0
      ensures r == MessagesOfChat(messages, selectedChatId)
    {
      MessagesOfChatSound(messages, selectedChatId);
      MessagesOfChatCounts(messages, selectedChatId);
      MessagesOfChatComplete(messages, selectedChatId);
      MessagesOfChat(messages, selectedChatId)
    }

    /**
     * `handleSendMessage`: issues the request the guard allows, if any. The input is
     * cleared only when the call returns; a failed call leaves it, and the sent
     * message is never added locally (it arrives on the stream).
     */
    method HandleSendMessage(callSucceeds: bool) returns (request: Option<SendRequest>)
      modifies this`inputValue
      ensures request == SendRequestFor(old(inputValue), selectedChatId)
      ensures inputValue == if request.Some? && callSucceeds then "" else old(inputValue)
    {
      request := SendRequestFor(inputValue, selectedChatId);
      if request.None? {
        return;
      }
      if callSucceeds {
        inputValue := "";
      }
    }
  }
}
