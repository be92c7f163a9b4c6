# Chat store model

This project models the client-side chat store of a real-time chat
application (`client/src/hooks/use-chat.ts`). The store holds a chat list in
the order its transitions leave it. It also holds at most one open chat ("single chat"): a
chat plus its messages in the order the store received them: the fetched
list, then appends in arrival order, with a confirmed message keeping its
optimistic entry's slot. Each run of zustand `set` calls
between two awaits becomes one pure Dafny function from one
`ChatStore.State` record to the next.

The transitions fall into four groups:

- **Chat-list maintenance.** `addNewChat` moves a chat to the front and
  replaces any stored copy. `updateChatLastMessage` copies a chat with a new
  `lastMessage` and moves it to the front. An unknown id is a no-op.
- **Socket append path.** `addNewMessage` appends a message only when the
  open chat has the given id. The chat view's socket handler calls it for
  every `message:new` event, passing the view's own chat id. The message's
  own `chatId` is never consulted.
- **Optimistic send.** `sendMessage` is split at its `await` into two steps.
  `SendMessage.SendBegin` holds the guard and appends a temporary
  `"Sending..."` message when the open chat matches.
  `SendMessage.SendSettle` replaces every message carrying the temporary id
  with the server's copy, at the same position. On failure it does nothing.
  Because the steps are separate, lemmas can place socket pushes or a chat
  switch between them.
- **Flag-bracketed requests.** `fetchChats`, `fetchAllUsers`,
  `fetchSingleChat` and `createChat` each have a Begin step that raises a
  loading flag. Each has an End step that takes the request's
  `Response<T>` (`Success(payload)` or `Failure`), applies it, and clears the
  flag.

Modules: `Wrappers` (Option, Response), `ChatTypes` (User, Message, Chat,
SingleChat, the send payload), `ChatList` (lookup, removal, move-to-front),
`MessageList` (replace-in-place by id), `ChatStore` (the state record and
every transition except sending) and `SendMessage` (the send protocol).

Behaviour of the store worth noting:

- A confirmation whose temporary id is no longer in the open chat changes
  nothing. It is not appended.
- The confirmation step checks only that some chat is open. It does not
  check which chat is open.
- `addNewMessage` never touches the chat list.
- The send path has no AI placeholder and no streaming path.

Falsy JavaScript values are modelled explicitly. A missing chat id in the
send payload is the empty string. A missing user is `None`. `content || ""`
and `image || null` are `SendMessage.OrEmpty` and `SendMessage.OrNull`.

## Model

| member | source | states |
|---|---|---|
| ChatList.FindIndex | client/src/hooks/use-chat.ts:139-140 | returns -1 exactly when no chat has the id; otherwise the first position holding it |
| ChatList.Find | client/src/hooks/use-chat.ts:155-156 | returns nothing exactly when no chat has the id; otherwise the entry at the first matching position |
| ChatList.Without | client/src/hooks/use-chat.ts:143 | the filter keeps exactly the chats with a different id, shrinking the list by the number of matches |
| ChatList.MoveToFront | client/src/hooks/use-chat.ts:137-151 | new chat at position 0, rest is the old list minus that id; unique ids preserved; length kept if present (unique list), one longer and plain prepend if absent |
| ChatList.UpdateLastMessage | client/src/hooks/use-chat.ts:153-161 | unknown id leaves the list; otherwise the first match with only lastMessage changed heads the list, which equals move-to-front of that copy; unique lists stay unique and keep their length |
| ChatList.MoveToFrontKeepsIds | client/src/hooks/use-chat.ts:139-149 | every id present before move-to-front is present after |
| ChatList.WithoutAbsent | client/src/hooks/use-chat.ts:145-148 | filtering an id that is absent returns the list itself, so both branches of addNewChat agree |
| ChatList.WithoutUnique | client/src/hooks/use-chat.ts:143 | filtering keeps a unique list unique |
| ChatList.WithoutConcat | client/src/hooks/use-chat.ts:143 | filtering distributes over concatenation, so survivors keep their relative order |
| ChatList.WithoutAt | client/src/hooks/use-chat.ts:158 | in a unique list, filtering the id found at k removes exactly position k |
| ChatList.UpdateMovesToFront | client/src/hooks/use-chat.ts:157-159 | in a unique list, updating chat k gives the updated chat followed by the others in order ([A,B,C] to [B',A,C]) |
| MessageList.ReplaceById | client/src/hooks/use-chat.ts:128 | same length; each entry with the temporary id becomes the replacement, every other entry is unchanged; an absent id leaves the list; a replacement with another id leaves no entry with the temporary id |
| MessageList.ReplaceConcat | client/src/hooks/use-chat.ts:128 | replacement acts on each part of a concatenation separately |
| MessageList.ReplaceUnique | client/src/hooks/use-chat.ts:128 | any list that matches the pointwise description is the replacement result |
| MessageList.ReplaceFreshAppend | client/src/hooks/use-chat.ts:124-131 | a freshly appended entry, then replaced, is as if the replacement had been appended; later entries stay after it |
| MessageList.ReplaceAt | client/src/hooks/use-chat.ts:128 | with the id only at k, exactly position k is replaced |
| MessageList.ReplaceTwice | client/src/hooks/use-chat.ts:128 | a second replacement by the same id after a confirmation with a different id is a no-op |
| ChatStore.Initial | client/src/hooks/use-chat.ts:33-41 | initial store: empty lists, no open chat, all flags false |
| ChatStore.AddNewChat | client/src/hooks/use-chat.ts:137-151 | only the chat list changes; the new chat heads it; the rest is the old list minus its id; uniqueness and length rules as for move-to-front |
| ChatStore.UpdateChatLastMessage | client/src/hooks/use-chat.ts:153-161 | unknown id leaves the whole state; otherwise only the list changes, headed by the first match with the new lastMessage, followed by the others; unique lists keep length and uniqueness |
| ChatStore.AddAllUnique | client/src/hooks/use-chat.ts:137-151 | any sequence of addNewChat calls keeps ids unique and leaves the last added chat at position 0 |
| ChatStore.AddAllKeepsIds | client/src/hooks/use-chat.ts:137-151 | every chat added in a sequence of addNewChat calls still has its id in the list |
| ChatStore.AddNewMessage | client/src/hooks/use-chat.ts:163-173 | if the open chat has another id or no chat is open, the state is unchanged; otherwise messages gain the message at the end, the chat is unchanged, and the chat list is never touched |
| ChatStore.PushAllAppends | client/src/components/chat/chat-body.tsx:23 | while the view's chat id names the open chat, a run of socket pushes appends them all in delivery order; otherwise the run changes nothing; the messages' own chat ids are never consulted |
| ChatStore.PushIgnoresMessageChat | client/src/hooks/use-chat.ts:163-173 | a pushed message naming another chat is still appended when the view's id names the open chat |
| ChatStore.AddNewMessageTwice | client/src/hooks/use-chat.ts:163-173 | the same event delivered twice is appended twice (no dedup) |
| ChatStore.FetchChatsBegin | client/src/hooks/use-chat.ts:56 | raises areChatsLoading; every other field, including the other three flags, is unchanged |
| ChatStore.FetchChatsEnd | client/src/hooks/use-chat.ts:57-64 | success replaces the list wholesale, failure keeps it; flag cleared; nothing else changes |
| ChatStore.FetchChatsBracket | client/src/hooks/use-chat.ts:55-65 | flag up while in flight; failure leaves the store as before apart from the cleared flag |
| ChatStore.FetchUsersBegin | client/src/hooks/use-chat.ts:44 | raises areUsersLoading; every other field, including the other three flags, is unchanged |
| ChatStore.FetchUsersEnd | client/src/hooks/use-chat.ts:45-52 | success replaces the user list, failure keeps it; flag cleared; nothing else changes |
| ChatStore.FetchUsersBracket | client/src/hooks/use-chat.ts:43-53 | flag up while in flight; failure leaves the store as before apart from the cleared flag; success replaces only the users |
| ChatStore.FetchSingleChatBegin | client/src/hooks/use-chat.ts:83 | raises isSingleChatLoading; every other field, including the other three flags, is unchanged |
| ChatStore.FetchSingleChatEnd | client/src/hooks/use-chat.ts:84-91 | success opens the returned chat and messages, failure keeps the open chat; flag cleared; nothing else changes |
| ChatStore.FetchSingleChatBracket | client/src/hooks/use-chat.ts:82-92 | flag up while in flight; failure keeps the open chat and clears the flag; success opens the fetched chat and clears the flag |
| ChatStore.CreateChatBegin | client/src/hooks/use-chat.ts:68 | raises isCreatingChat; every other field, including the other three flags, is unchanged |
| ChatStore.CreateChatEnd | client/src/hooks/use-chat.ts:69-79 | success returns the chat and puts it at the front over the list minus its id; failure returns null with the list unchanged; flag cleared either way |
| ChatStore.CreateChatBracket | client/src/hooks/use-chat.ts:67-80 | flag up while in flight and down after; failure leaves the store as before apart from the flag; success keeps ids unique |
| SendMessage.OrEmpty | client/src/hooks/use-chat.ts:104 | a present non-empty string is kept, anything else becomes "" |
| SendMessage.OrNull | client/src/hooks/use-chat.ts:105 | a present non-empty string is kept, anything else becomes null |
| SendMessage.TempMessage | client/src/hooks/use-chat.ts:100-111 | the optimistic message has the temporary id, the payload's chat id and reply target, the user as sender, the two clock readings as timestamps, and status "Sending..." |
| SendMessage.RequestOf | client/src/hooks/use-chat.ts:121 | the request carries the payload's chat id, content and image, and the reply target's id exactly when there is one |
| SendMessage.SendBegin | client/src/hooks/use-chat.ts:94-118 | without chat id or user id: no change and no request; otherwise a request keyed by the temporary id, and exactly the optimistic message appended, only when the open chat is the target |
| SendMessage.SendSettle | client/src/hooks/use-chat.ts:120-134 | failure or no open chat: no change; an absent temporary id: no change; success: same length, entries with the temporary id replaced in place, all others and the chat unchanged |
| SendMessage.SendRoundTrip | client/src/hooks/use-chat.ts:113-131 | with a fresh temporary id, send then confirm equals appending the server's message: replaced, not duplicated |
| SendMessage.SendWithPushes | client/src/hooks/use-chat.ts:113-131 | socket pushes arriving mid-send stay after the confirmed message, which takes the optimistic entry's place |
| SendMessage.SendToClosedChat | client/src/hooks/use-chat.ts:113-131 | a send to a chat that is not open changes nothing before or after it settles, given a fresh temporary id |
| SendMessage.SendFailureKeepsPlaceholder | client/src/hooks/use-chat.ts:132-134 | a failed send rolls nothing back: the state is the one after the optimistic step, whose messages are the old ones plus exactly the optimistic message, still "Sending..." |

## Left out

- HTTP calls (`API.get`, `API.post`): each becomes an `Response<T>` parameter of an End step.
- Toast notifications: they are user-visible side effects with no effect on the store.
- The identity store (`useAuth.getState()`): it becomes the `user` argument of `SendBegin`.
- zustand's `create`, `set` and `get`: each run of `set` calls between two awaits is one pure function over `State`.
- `generateUUID` and `new Date().toISOString()`: the temporary id and the two clock readings (`createdAt`, `updatedAt`) are parameters. Freshness of the temporary id is a precondition of the lemmas that need it.
- Error messages from rejected requests: they only feed toasts, so `Response.Failure` carries none.
- The React components (`chat-body.tsx`, `chat-list.tsx`, `App.tsx`): rendering, scrolling, routing and socket subscribe/unsubscribe are out of scope. Only the socket handler's call to `addNewMessage` is modelled, as `ChatStore.PushAll`.
- Server code (Express bootstrap, auth controller, seed script): none of it is part of the store.
- The chat model's `isAIChat` pre-save hook: it depends on a database query. `isAIChat` is an opaque flag here.
- AI placeholder and streaming messages, and chat-list updates on socket pushes: the store's code does neither.
- Search/filter over the chat list: the store does not implement it.
