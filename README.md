# TextPilot message synchronisation, modelled in Dafny

TextPilot connects a WhatsApp account to a web UI. It has two back ends and two front ends, and the same small piece of logic runs through all of them: messages arrive from WhatsApp, are stored and fanned out to subscribers, and each client folds them into its own store and chat list. This project models that logic and proves its properties.

- **Node back end** (`apps/server`). A connection snapshot (`qrCode`, `authData`, `isReady`, an append-only `messages` list) is updated by the whatsapp-web.js event handlers. The `messageEvents` emitter fans every message out to the `messagesSSE` streams. Each stream has its own FIFO queue and at most one suspended waiter, and removes its listener when it finishes. `qrCodeSSE` and `isReadySSE` poll until the client is ready. `sendMessage` re-publishes the sent message.
  Modules: `EventBus`, `ServerClient`, `ServerRouter`, `WebJs` (message shape).
- **Web front end** (`apps/web`). An array of messages deduplicated by `id.id`. From it the client derives a chat list: the latest message per `id.remote`, earliest on ties, sorted newest first. It also keeps the selected chat's messages and a guarded send form.
  Modules: `WebMessages`, `WebClient`, `JsText` (`String.prototype.trim`).
- **Go back end** (`internal`):
  - the whatsmeow client wrapper: event translation, the message store keyed by ID, and the event channel;
  - the client registry;
  - `APIError` and its wrapping;
  - the HTTP handlers: chat listing and details with their name rules, send, read and disconnect, and the server-sent-event stream.

  Modules: `GoModels`, `GoWhatsapp`, `Manager`, `ApiErrors`, `ApiHandlers`, `Sse`.
- **Frontend client** (`frontend`). A `Map` from chat JID to a message list, fed by the event stream and by local sends, with no deduplication. From it come a chat list (the last element of each list), the sender-grouping flags of the message bubbles, and the send form.
  Modules: `FrontendStore`, `WhatsappEvent`, `LocalChats`, `ChatView`.

`Wrappers` holds `Option` and `Result`.

How the model stands in for the runtime:
- State that the source updates in place is a class, with `modifies` clauses on its methods. This covers the snapshot, the streams and bus, the registry, the Go client, the React component state and the message map.
- Derivations are functions with lemmas.
- Loops in the source are methods with loop invariants, each proved equal to a specification function. These are:
  - `Emit`;
  - the polling loop;
  - the `forEach` that builds the chat table;
  - the two `getChats` loops;
  - the participants loop;
  - the event-stream loop.
- Calls into code outside the model are parameters that hold the result of the call. This covers whatsmeow, whatsapp-web.js, `types.ParseJID`, `url.QueryUnescape`, `json.Marshal`, the clock and the network.
- A Go panic is the value `Panicked`, or the handler reply `Recovered`. The chi `Recoverer` middleware (`internal/api/router.go:45`) turns it into a 500.

## Model

| member | source | states |
|---|---|---|
| EventBus.Subscription.Deliver | apps/server/src/routers/whatsapp.ts:32-38 | the listener appends the message at the tail of its own queue and clears the waiter |
| EventBus.Subscription.constructor | apps/server/src/routers/whatsapp.ts:29-30 | a stream starts not started, with an empty queue, no waiter, no outstanding request and no pending cancellation |
| EventBus.Without | apps/server/src/routers/whatsapp.ts:51 | removing a listener keeps exactly the other listeners, and keeps them distinct |
| EventBus.MessageBus.constructor | apps/server/src/lib/whatsapp/client.ts:12 | the emitter starts with no listeners |
| EventBus.MessageBus.Subscribe | apps/server/src/routers/whatsapp.ts:28-40 | calling the handler creates a generator whose body has not run: an empty queue, no waiter, and no listener registered yet |
| EventBus.MessageBus.Emit | apps/server/src/routers/whatsapp.ts:32-40 | every registered stream, each with its own queue, gets the message at its tail and is woken; the loop keeps the bus invariant (registered exactly while not finished, waiting only on an empty queue, a woken outstanding request always has a message) |
| EventBus.MessageBus.Pull | apps/server/src/routers/whatsapp.ts:40-52 | the first pull registers the listener last and suspends; after that a non-empty queue yields its head at once; a yield answers the outstanding request; an empty queue suspends and leaves the request outstanding; a cancellation queued behind that request takes effect after the yield that answers it and deregisters the stream |
| EventBus.MessageBus.Cancel | apps/server/src/routers/whatsapp.ts:42-52 | ending a stream that was never pulled completes it with no listener to remove; ending it at a yield with no request outstanding runs `finally` at once and removes the listener; behind an outstanding request, suspended or already woken, it waits until that request is answered |
| ServerRouter.Drain | apps/server/src/routers/whatsapp.ts:40-49 | pulling until suspension hands out exactly the queued messages, in publish order (FIFO); a stream not yet started registers its listener and hands out nothing |
| ServerRouter.MessageBeforeFirstPullIsLost | apps/server/src/routers/whatsapp.ts:28-47 | a message emitted before the first pull reaches no listener: the first pull suspends, and only a later message is yielded |
| ServerRouter.CancelledStreamReceivesNothing | apps/server/src/routers/whatsapp.ts:40-52 | a stream ended at a yield is deregistered, so a later emission leaves its queue empty while a still-registered stream gets both messages |
| ServerRouter.CancelWhileSuspendedWaitsForOneMessage | apps/server/src/routers/whatsapp.ts:42-52 | a stream ended while suspended still hands the next message to its outstanding request, and is deregistered right after |
| ServerRouter.CancelAfterWakeUpStillHandsOver | apps/server/src/routers/whatsapp.ts:32-51 | a stream ended after a message woke it, but before its request resumed, still hands that message over, then finishes and deregisters |
| ServerRouter.FirstReady | apps/server/src/routers/whatsapp.ts:17 | finds the first round whose readiness check succeeds, or none |
| ServerRouter.PollUntilReady | apps/server/src/routers/whatsapp.ts:15-19 | the polling loop yields once per round and returns right after the first round that sees `isReady` |
| ServerRouter.QrCodeSSE | apps/server/src/routers/whatsapp.ts:14-20 | yields the current (possibly null) QR code every round and stops only after a round in which `isReady` holds |
| ServerRouter.IsReadySSE | apps/server/src/routers/whatsapp.ts:21-27 | yields `isReady` every round and never returns while it stays false |
| ServerRouter.SendMessage | apps/server/src/routers/whatsapp.ts:62-66 | a successful send is emitted once to every registered stream and returned unchanged; a failed one emits nothing |
| ServerClient.AuthDataOf | apps/server/src/lib/whatsapp/client.ts:44-49 | the four session fields are copied into `authData` |
| ServerClient.WhatsappClientState.constructor | apps/server/src/lib/whatsapp/client.ts:24-29 | the initial snapshot: no QR code, no session, not ready, no messages |
| ServerClient.WhatsappClientState.OnReady | apps/server/src/lib/whatsapp/client.ts:31-34 | `ready` is handled at most once and sets `isReady`; nothing clears it |
| ServerClient.WhatsappClientState.OnQr | apps/server/src/lib/whatsapp/client.ts:36-39 | the latest QR code replaces the previous one |
| ServerClient.WhatsappClientState.OnAuthenticated | apps/server/src/lib/whatsapp/client.ts:41-50 | session data replaces `authData`; falsy data leaves it unchanged |
| ServerClient.WhatsappClientState.OnMessage | apps/server/src/lib/whatsapp/client.ts:58-61 | the message is appended (length grows by one) and then emitted once to every stream |
| WebMessages.FindById | apps/web/src/routes/whatsapp/-hooks/use-whatsapp-messages.tsx:29 | `find` returns none exactly when no message has the ID, else the first one that has it |
| WebMessages.Merge | apps/web/src/routes/whatsapp/-hooks/use-whatsapp-messages.tsx:28-33 | a present `id.id` returns the previous array; a new one is appended at the end |
| WebMessages.MergeIdempotent | apps/web/src/routes/whatsapp/-hooks/use-whatsapp-messages.tsx:28-33 | merging the same message twice equals merging it once |
| WebMessages.MergeKeepsIdsUnique | apps/web/src/routes/whatsapp/-hooks/use-whatsapp-messages.tsx:28-33 | merging keeps `id.id` values pairwise distinct |
| WebMessages.MergeAllFacts | apps/web/src/routes/whatsapp/-hooks/use-whatsapp-messages.tsx:25-35 | after any sequence of merges: IDs are distinct, the earlier array is a prefix, every delivered ID is present, and nothing is invented |
| WebMessages.UniqueIdsCountOnce | apps/web/src/routes/whatsapp/-hooks/use-whatsapp-messages.tsx:28-33 | in a deduplicated array each ID occurs once or not at all |
| WebMessages.DeliveredOnce | apps/web/src/routes/whatsapp/-hooks/use-whatsapp-messages.tsx:25-35 | every delivered message's ID occurs exactly once, however often it was delivered |
| WebMessages.InChatSnoc | apps/web/src/routes/whatsapp/-hooks/use-whatsapp-messages.tsx:41 | a chat occurs in `p + [x]` exactly when it occurs in `p` or is `x`'s chat |
| WebMessages.StepWellFormed | apps/web/src/routes/whatsapp/-hooks/use-whatsapp-messages.tsx:40-46 | one `forEach` step keeps the chat table's key order consistent with its map |
| WebMessages.TableOfWellFormed | apps/web/src/routes/whatsapp/-hooks/use-whatsapp-messages.tsx:39-46 | the folded chat table's key order lists each key once |
| WebMessages.TableOfKeys | apps/web/src/routes/whatsapp/-hooks/use-whatsapp-messages.tsx:39-46 | the table has a key exactly for each `id.remote` occurring in the messages |
| WebMessages.LatestKept | apps/web/src/routes/whatsapp/-hooks/use-whatsapp-messages.tsx:43 | a message that is not strictly newer leaves the chat's latest message in place (ties keep the earlier one) |
| WebMessages.LatestNew | apps/web/src/routes/whatsapp/-hooks/use-whatsapp-messages.tsx:43-44 | a strictly newer message becomes the chat's latest |
| WebMessages.TableOfLatest | apps/web/src/routes/whatsapp/-hooks/use-whatsapp-messages.tsx:39-46 | each chat's entry has the maximum timestamp of its chat, and is the earliest such message |
| WebMessages.TableOfDescribes | apps/web/src/routes/whatsapp/-hooks/use-whatsapp-messages.tsx:39-46 | the folded table has exactly the chats of the messages, each with its latest message |
| WebMessages.EntriesOfTable | apps/web/src/routes/whatsapp/-hooks/use-whatsapp-messages.tsx:48 | `chatMap.values()` has one entry per chat, each the chat's latest message, and covers every chat |
| WebMessages.Entries | apps/web/src/routes/whatsapp/-hooks/use-whatsapp-messages.tsx:48 | one entry per key of the table, in key insertion order, each its chat's latest message |
| WebMessages.InsertByTimePermutes | apps/web/src/routes/whatsapp/-hooks/use-whatsapp-messages.tsx:49 | one insertion step adds exactly the inserted element |
| WebMessages.InsertByTimeSorted | apps/web/src/routes/whatsapp/-hooks/use-whatsapp-messages.tsx:49 | inserting into a newest-first list keeps it newest first |
| WebMessages.InsertByTimeOnePerChat | apps/web/src/routes/whatsapp/-hooks/use-whatsapp-messages.tsx:49 | inserting a message of a new chat keeps one entry per chat |
| WebMessages.SortNewestFirstFacts | apps/web/src/routes/whatsapp/-hooks/use-whatsapp-messages.tsx:49 | the sort's output is newest first and a permutation of its input |
| WebMessages.SortNewestFirstStable | apps/web/src/routes/whatsapp/-hooks/use-whatsapp-messages.tsx:49 | the sort is stable: for each timestamp, the messages stamped with it come out in their input order |
| WebMessages.SortNewestFirstOnePerChat | apps/web/src/routes/whatsapp/-hooks/use-whatsapp-messages.tsx:49 | sorting keeps one entry per chat |
| WebMessages.ItemsOf | apps/web/src/routes/whatsapp/-hooks/use-whatsapp-messages.tsx:50-57 | one list item per entry, in order |
| WebMessages.SortedEntries | apps/web/src/routes/whatsapp/-hooks/use-whatsapp-messages.tsx:48-49 | the sorted entries are newest first, one per chat, each its chat's latest, and cover every chat |
| WebMessages.ChatsCharacterised | apps/web/src/routes/whatsapp/-hooks/use-whatsapp-messages.tsx:38-59 | `chats` is sorted by timestamp (non-increasing); it has distinct IDs; an ID is present iff the chat occurs; each row takes ID, name, body and time from its chat's latest message |
| WebMessages.DeriveChats | apps/web/src/routes/whatsapp/-hooks/use-whatsapp-messages.tsx:38-59 | the `forEach` loop with the sort and the map computes `Chats`, with the same four properties; the component in `apps/web/src/routes/whatsapp/-components/whatsapp-client.tsx` (lines 40-59) repeats the same derivation |
| WebMessages.MessagesOfChatSound | apps/web/src/routes/whatsapp/-hooks/use-whatsapp-messages.tsx:62-64 | the filter keeps only messages of the selected chat, and never more than it was given |
| WebMessages.MessagesOfChatAppend | apps/web/src/routes/whatsapp/-hooks/use-whatsapp-messages.tsx:62-64 | the filter distributes over concatenation, so it preserves order |
| WebMessages.MessagesOfChatComplete | apps/web/src/routes/whatsapp/-hooks/use-whatsapp-messages.tsx:62-64 | every message of the selected chat is kept |
| WebMessages.MessagesOfChatCounts | apps/web/src/routes/whatsapp/-hooks/use-whatsapp-messages.tsx:62-64 | each message of the selected chat is kept as often as it occurs, and no other message is kept |
| WebMessages.SelectedChatOf | apps/web/src/routes/whatsapp/-hooks/use-whatsapp-messages.tsx:66-71 | `selectedChat` is null exactly when the selection is null or empty; otherwise it carries the selection and that chat's messages, filtered in arrival order |
| WebMessages.MessagesHook.constructor | apps/web/src/routes/whatsapp/-hooks/use-whatsapp-messages.tsx:21-22 | the hook starts with no messages and no selected chat |
| WebMessages.MessagesHook.OnLiveData | apps/web/src/routes/whatsapp/-hooks/use-whatsapp-messages.tsx:25-35 | new stream data is merged; no data changes nothing; unique IDs stay unique |
| WebClient.SendRequestFor | apps/web/src/routes/whatsapp/-components/whatsapp-client.tsx:69-76 | no request exactly when the input is blank or no chat is selected; otherwise the untrimmed text goes to the selected chat |
| WebClient.WhatsappClientView.constructor | apps/web/src/routes/whatsapp/-components/whatsapp-client.tsx:12-14 | the component starts with no messages, no selection and an empty input |
| WebClient.WhatsappClientView.OnLiveData | apps/web/src/routes/whatsapp/-components/whatsapp-client.tsx:19-29 | the component's own merge: duplicates leave the array unchanged, new IDs are appended |
| WebClient.WhatsappClientView.SelectChat | apps/web/src/routes/whatsapp/-components/whatsapp-client.tsx:95 | clicking a row selects its chat |
| WebClient.WhatsappClientView.SetInput | apps/web/src/routes/whatsapp/-components/whatsapp-client.tsx:142 | typing sets the input |
| WebClient.WhatsappClientView.FilteredMessages | apps/web/src/routes/whatsapp/-components/whatsapp-client.tsx:62-64 | a stored message is shown exactly when it belongs to the selected chat, as often as it is stored, in arrival order (the filter of `MessagesOfChat`) |
| WebClient.WhatsappClientView.HandleSendMessage | apps/web/src/routes/whatsapp/-components/whatsapp-client.tsx:67-81 | sends what the guard allows; the input is cleared only after the call returns; the sent message is not added locally |
| JsText.TrimStart | apps/web/src/routes/whatsapp/-components/whatsapp-client.tsx:69 | removes exactly the leading white space and line terminators |
| JsText.TrimEnd | apps/web/src/routes/whatsapp/-components/whatsapp-client.tsx:69 | removes exactly the trailing white space and line terminators |
| JsText.TrimCharacterised | apps/web/src/routes/whatsapp/-components/whatsapp-client.tsx:69 | `trim()` is empty iff the text is blank; otherwise it is the slice between the first and the last non-space |
| GoModels.FirstAt | internal/api/handlers.go:204 | finds the first '@', or none |
| GoModels.UserAtServerSplits | internal/api/handlers.go:204 | `user@server` splits back into user and server at its first '@' |
| GoWhatsapp.MessageText | internal/whatsapp/client.go:69-72 | the conversation text when non-empty, else the extended text's body; a missing body is the nil dereference |
| GoWhatsapp.Stored | internal/whatsapp/client.go:74-86 | exactly a message event with text is stored, under its ID and with its text |
| GoWhatsapp.ToAPIEvent | internal/whatsapp/client.go:176-207 | QR becomes `qr_code` with its first code (panics with none); a message becomes `message` with all six fields copied; the three connection events become `status` with `connected`/`disconnected`/`logged_out`; anything else is nil |
| GoWhatsapp.PushedEventsTranslate | internal/whatsapp/client.go:64-111 | every event the handler pushes is forwarded unless it is a QR event without codes, and a forwarded message is the one the handler stored |
| GoWhatsapp.WhatsappClient.constructor | internal/whatsapp/client.go:33-60 | a new client has no stored messages and an open, empty event channel |
| GoWhatsapp.WhatsappClient.Push | internal/whatsapp/client.go:89 | a send on an open channel appends the event; on a closed channel it panics |
| GoWhatsapp.WhatsappClient.Close | internal/whatsapp/client.go:128-136 | closes the channel; closing it again panics |
| GoWhatsapp.WhatsappClient.EventHandler | internal/whatsapp/client.go:64-112 | a message with text is stored under its ID (overwriting) and then pushed; QR and connection events are pushed; a disconnection or logout then closes the channel; other events change nothing |
| GoWhatsapp.WhatsappClient.SendTextMessage | internal/whatsapp/client.go:140-163 | a failed send is wrapped with "failed to send message: " and stores nothing; a successful one stores the text from this account to the JID, under the response ID |
| GoWhatsapp.WhatsappClient.GetMessage | internal/whatsapp/client.go:167-172 | returns the stored message exactly when its ID is present |
| Manager.ClientManager.constructor | internal/manager/client_manager.go:20-25 | a new manager has no clients |
| Manager.ClientManager.Add | internal/manager/client_manager.go:28-32 | registers the client under the ID, replacing any previous one; other IDs are unchanged |
| Manager.ClientManager.Get | internal/manager/client_manager.go:35-40 | finds the client exactly when the ID is registered |
| Manager.ClientManager.Remove | internal/manager/client_manager.go:43-47 | the ID is no longer registered; an absent ID is a no-op; other IDs are unchanged |
| Manager.AddGetRemove | internal/manager/client_manager.go:28-47 | `Get` after `Add` finds the client, `Get` after `Remove` finds nothing, and other IDs are untouched |
| ApiErrors.NatString | internal/api/errors.go:19-21 | `%d` of a status: decimal digits, no leading zero |
| ApiErrors.NatStringValue | internal/api/errors.go:19-21 | the digits read back to the status |
| ApiErrors.ErrorShowsWrapped | internal/api/errors.go:17-22 | `Error()` has the `Wrapped:` segment iff a wrapped error is present, after the same head |
| ApiErrors.Wrap | internal/api/errors.go:30-34 | a copy with message, code and status kept and the wrapped error set; the receiver is a value and is untouched |
| ApiErrors.Unwrap | internal/api/errors.go:25-27 | returns the wrapped error, if any |
| ApiErrors.UnwrapWrap | internal/api/errors.go:25-34 | `Unwrap(e.Wrap(x)) == x`, and wrapping again replaces the wrapped error |
| ApiErrors.ErrorOfWrap | internal/api/errors.go:17-34 | the text of a wrapped error is the unwrapped head followed by the wrapped error's text |
| ApiErrors.PredefinedTable | internal/api/errors.go:37-52 | the predefined errors have distinct codes, nothing wrapped, and statuses 404/400/400/409/500/500/404 |
| ApiHandlers.FirstNonEmpty | internal/api/handlers.go:242-247 | the first non-empty candidate, else the fallback |
| ApiHandlers.ContactNamePriority | internal/api/handlers.go:242-247 | a contact's name is PushName, else FullName, else the JID string |
| ApiHandlers.ChatDetailNamePriority | internal/api/handlers.go:344-349 | a chat's name is BusinessName, else FullName, else `user@server` |
| ApiHandlers.ContactChats | internal/api/handlers.go:238-254 | contacts on `g.us` are skipped; every other contact yields exactly one non-group chat |
| ApiHandlers.ContactChatsFilterMap | internal/api/handlers.go:238-254 | the contact chats are exactly the non-group contacts, filtered independently, each mapped to its chat, in store order |
| ApiHandlers.GroupChats | internal/api/handlers.go:262-272 | one group chat per joined group, in order, with its name and with its topic as description |
| ApiHandlers.ContactsBeforeGroups | internal/api/handlers.go:231-273 | every contact chat precedes every group chat |
| ApiHandlers.GetChats | internal/api/handlers.go:223-277 | unknown client, then failing contacts, then failing groups give their errors; otherwise the contact chats followed by the group chats |
| ApiHandlers.CollectContactChats | internal/api/handlers.go:233-255 | the loop over the contact store builds exactly `ContactChats`: one chat per non-group contact, in order |
| ApiHandlers.AppendGroupChats | internal/api/handlers.go:257-273 | the loop over the joined groups appends exactly one group chat per group, in order, after the contact chats |
| ApiHandlers.ParticipantsOf | internal/api/handlers.go:369-374 | the participants are copied in order with their admin flags |
| ApiHandlers.ChatDetail | internal/api/handlers.go:329-376 | the JID is `user@server`; it is a group iff the server is `g.us`; the picture URL only when found; a group whose info loads takes its name, topic and participants; otherwise the name priority applies |
| ApiHandlers.GetChat | internal/api/handlers.go:294-380 | the error ladder (unescape client, unescape chat, unknown client, unparsable JID, missing contact), then the chat details |
| ApiHandlers.SendMessage | internal/api/handlers.go:162-208 | the error ladder, with the recipient parsed from the body's `jid`; then the stored sent message with its SenderJID (the account's own JID) parsed and rewritten to `user@server`, or the parse error; the lookup after sending cannot fail; only the sender's store changes, and no client's channel or closed flag does |
| ApiHandlers.GetMessageById | internal/api/handlers.go:386-404 | unknown client, then unknown message, else the stored message |
| ApiHandlers.Events | internal/api/handlers.go:99-144 | unknown client or no flusher fail before writing; otherwise the `buffer` frame, `status logged_in` when logged in, then one frame per forwarded event until the channel closes or a translation panics |
| ApiHandlers.StreamLoop | internal/api/handlers.go:127-143 | the channel loop writes one frame per forwarded event after what was already written, and panics exactly when `StreamBody` says a translation panics |
| ApiHandlers.StreamDispatched | internal/api/handlers.go:127-143 | a receiver reads the loop's output as the forwarded events in channel order |
| ApiHandlers.EventsBodyDispatched | internal/api/handlers.go:119-143 | a receiver reads `buffer`, then `status` when logged in, then the forwarded events |
| ApiHandlers.Disconnect | internal/api/handlers.go:419-432 | closes the channel and deregisters the client; when the channel was already closed it panics and the client stays registered; no other client is closed, and no client's store or channel changes |
| ApiHandlers.LogoutThenDisconnect | internal/api/handlers.go:427-428 | after a logout event, a disconnect request panics and leaves the client registered |
| ApiHandlers.DisconnectClosingOnce | internal/api/handlers.go:419-432 | corrected: a registered client is always deregistered with its channel closed, and the request succeeds; no other client is closed, and no client's store or channel changes |
| ApiHandlers.LogoutThenDisconnectClosingOnce | internal/api/handlers.go:427-428 | corrected: after a logout, disconnect succeeds and deregisters the client |
| Sse.SendSSEEvent | internal/api/handlers.go:436-453 | nothing is written exactly when marshalling fails; otherwise the `event:`/`data:` frame |
| Sse.LinesFromCons | internal/api/handlers.go:449-450 | a line without LF followed by LF splits off as one line |
| Sse.FieldOf | internal/api/handlers.go:449-450 | `name: value` has field name `name` and value `value` |
| Sse.FrameLines | internal/api/handlers.go:449-450 | a frame is the `event` line, the `data` line and a blank line |
| Sse.FrameThenRest | internal/api/handlers.go:449-450 | a frame followed by more output dispatches its event first |
| Sse.FramesRoundTrip | internal/api/handlers.go:443-450 | frames with one-line types and JSON read back as exactly those events, in order |
| FrontendStore.RecordedWellFormed | frontend/src/hooks/use-whatsapp-event.ts:55-62 | the push and set updates keep the map's key order consistent |
| FrontendStore.RecordedCurrent | frontend/src/hooks/use-whatsapp-event.ts:55-62 | consulting the current map, the chat gains the message at its end, other chats are unchanged, and a new chat goes last |
| FrontendStore.RecordedStale | frontend/src/hooks/use-whatsapp-event.ts:59-62 | setting a chat the consulted map lacked replaces its whole list with the one message |
| FrontendStore.NoDedup | frontend/src/hooks/use-whatsapp-event.ts:55-58 | delivering the same message twice to a known chat keeps two copies |
| FrontendStore.DeliverAllKeepsEverything | frontend/src/hooks/use-whatsapp-event.ts:55-62 | corrected: every chat's list is its old list followed by all messages delivered to it |
| FrontendStore.RecordedKeepsKeys | frontend/src/hooks/use-whatsapp-event.ts:55-62 | recording never removes a chat |
| FrontendStore.DeliverAsWrittenKnown | frontend/src/hooks/use-whatsapp-event.ts:55-58 | as written, a chat known at registration gains every message delivered to it |
| FrontendStore.DeliverAsWrittenStale | frontend/src/hooks/use-whatsapp-event.ts:59-62 | as written, a chat unknown at registration keeps only the last message delivered to it |
| FrontendStore.StaleSnapshotLosesMessage | frontend/src/hooks/use-whatsapp-event.ts:55-87 | two messages to a new chat: as written only the second is kept; consulting the current map keeps both |
| FrontendStore.MessageMap.constructor | frontend/src/lib/atoms.ts:10-12 | the map starts empty |
| FrontendStore.MessageMap.Push | frontend/src/hooks/use-whatsapp-event.ts:56-58 | `draft.get(c)!.push(m)` appends to an existing list; a missing chat throws and the map is unchanged |
| FrontendStore.MessageMap.Set | frontend/src/hooks/use-whatsapp-event.ts:60-62 | `draft.set` replaces the list; a new key goes last in the order |
| FrontendStore.MessageMap.Record | frontend/src/hooks/use-whatsapp-event.ts:55-62 | the has/push/set branch on the consulted answer |
| WhatsappEvent.EventHook.constructor | frontend/src/hooks/use-whatsapp-event.ts:25-87 | not connected; the map's keys are captured when the effect runs |
| WhatsappEvent.EventHook.Handle | frontend/src/hooks/use-whatsapp-event.ts:27-87 | without a client ID nothing is registered; `buffer` changes nothing; `qr_code` stores the code; `message` records against the captured keys; `connected`/`logged_in` set connected and store the ID; `disconnected` clears both; any other status changes nothing |
| WhatsappEvent.EventHook.HandleCurrent | frontend/src/hooks/use-whatsapp-event.ts:50-64 | corrected: the message listener consults the map as it is when the message arrives |
| WhatsappEvent.TwoMessagesToNewChat | frontend/src/hooks/use-whatsapp-event.ts:50-64 | as written, two messages to a chat absent at registration leave only the second |
| WhatsappEvent.TwoMessagesToNewChatCurrent | frontend/src/hooks/use-whatsapp-event.ts:50-64 | corrected, both messages are kept in order |
| LocalChats.ItemsOf | frontend/src/hooks/use-whatsapp-local-chats.ts:17-27 | one item per key, in order, built from that key's list |
| LocalChats.IdsOf | frontend/src/hooks/use-whatsapp-local-chats.ts:22 | the items' IDs, in order |
| LocalChats.ItemsCharacterised | frontend/src/hooks/use-whatsapp-local-chats.ts:16-28 | exactly one item per map key, in insertion order; name, body and time come from the last element by position |
| LocalChats.RecordedNonEmpty | frontend/src/hooks/use-whatsapp-local-chats.ts:19-25 | recording keeps every list non-empty, as indexing `length - 1` requires |
| LocalChats.ItemsAfterRecord | frontend/src/hooks/use-whatsapp-local-chats.ts:16-28 | after a message is recorded its chat's item shows it, other items are unchanged, and a new chat's item comes last |
| ChatView.LastIffNextFirst | frontend/src/components/layout/chat.tsx:70-77 | a bubble is last in its run exactly when the next bubble is first in its own |
| ChatView.GroupEdges | frontend/src/components/layout/chat.tsx:73-77 | a one-message chat is both first and last; a bubble with same-sender neighbours on both sides is neither |
| ChatView.CountLastBehind | frontend/src/components/layout/chat.tsx:73-77 | run ends before bubble n are one fewer than run starts up to and including it |
| ChatView.RunsBalanced | frontend/src/components/layout/chat.tsx:73-77 | there are as many first-in-group bubbles as last-in-group bubbles |
| ChatView.ChatView.constructor | frontend/src/components/layout/chat.tsx:35 | the input starts empty |
| ChatView.ChatView.SetInput | frontend/src/components/layout/chat.tsx:143 | typing sets the input |
| ChatView.ChatView.Submit | frontend/src/components/layout/chat.tsx:113-139 | blank input or empty chat ID does nothing; otherwise the untrimmed text is sent, the input is cleared when the send settles, and on success the sent message is recorded (pushed if the rendered map had its chat, else set) |
| ChatView.SubmitScenario | frontend/src/components/layout/chat.tsx:46-51 | a blank submission changes nothing; a real one clears the input and records the reply |

## Left out

- Timers and scheduling: the `setTimeout` polling intervals and async/await ordering are left out. A polling run is the sequence of values its rounds observe.
- When oRPC takes the first `next()` of a `messagesSSE` generator is left to the caller: creating the stream (`Subscribe`) and the first pull (`Pull`) are separate steps, and messages emitted between them are not delivered, as in the generator.
- Concurrency: Go goroutines, the channel's 100-slot buffer and blocking sends, the `select` on the request context, and mutexes are left out. Each operation is one atomic step, and the channel is the sequence of events written to it.
- ApiHandlers.Events: the stream's `incoming` events are those read before the channel closed or the request ended. Both of those end the stream with nothing returned, so they are not told apart.
- Foreign libraries (whatsmeow, whatsapp-web.js, sqlstore, EventSource, Immer, React scheduling): each call is a parameter that holds its outcome.
- `types.ParseJID`, `url.QueryUnescape`, `json.Marshal`/`JSON.parse` and JSON decoding are also parameters. A JID is `(user, server)` together with the text its `String()` renders.
- The clock: `time.Now()` and `Timestamp.Unix()` are integer inputs.
- `WhatsappClient.Close` also calls `Client.Disconnect()` on whatsmeow; that upstream call is not part of this model.
- ApiHandlers.GetChats: the contacts come from a Go map, whose iteration order is unspecified. The model takes the order as its input sequence.
- ApiHandlers.GetChats: when there are no contacts and no groups, Go marshals the nil slice as `null`; the model returns an empty sequence.
- ApiHandlers.SendMessage: the own JID is assumed present. A nil `Store.ID` (not logged in) would dereference nil and is not modelled.
- The `connect` handler, `ReloadSessions`, session directories and `NewWhatsappClient` store setup are process and filesystem wiring.
- HTTP routing, middleware and `MakeHTTPHandler` are HTTP wiring, apart from the Recoverer's 500 for a panic.
- Rendering and styling components, logging, the `onerror` handler that closes the EventSource, and the unused `sendMessageEvent` emitter have no effect on state.
- `qrCodeAtom` and the `textpilot-client-id` local-storage entry are fields of `WhatsappEvent.EventHook`; the atom and its store are not modelled.
- `selectedChatIdAtom` is read only by components that are not part of this model.
- WebMessages.SortNewestFirst: `Array.prototype.sort` is stable (ECMAScript 2019). The model uses an insertion sort whose stability `SortNewestFirstStable` proves; any stable sort with this comparator gives the same output.
- WebMessages.Chats: it assumes timestamps are integers, so `b - a` never yields NaN.
- Sse.Dispatched: the receiver splits lines at LF only. The frames written here never contain CR, so the CR and CRLF line endings of the event-stream format never arise.
- ChatView.ChatView.Submit: `messagesMap.get(chatId)!` in the render is assumed to succeed; the open chat is always a key of the map.

## Findings

| source | as written | input that shows it | evidently intended | confidence | as-written member | corrected member |
|---|---|---|---|---|---|---|
| internal/api/handlers.go:427-428 | `disconnect` calls `Close`, which closes `eventChan`, but the event handler already closed it on `LoggedOut` or `Disconnected` (internal/whatsapp/client.go:101-108); closing twice panics, the Recoverer answers 500, and `Remove` never runs | a client that received a LoggedOut event, then `POST /clients/{id}/disconnect` | close the channel at most once and always deregister the client | high, not executed | ApiHandlers.LogoutThenDisconnect | ApiHandlers.DisconnectClosingOnce |
| frontend/src/hooks/use-whatsapp-event.ts:55-62 | the `message` listener consults the `messageMap` captured when the effect ran (the dependency list at line 87 omits it), so for a chat that was not in the map then, every message overwrites the chat's list with `[message]` | effect runs with an empty map; two messages for chat `c` arrive; the chat ends up as `[m2]` | append every message to its chat's list as it is when the message arrives | high, not executed | WhatsappEvent.TwoMessagesToNewChat | WhatsappEvent.EventHook.HandleCurrent |
