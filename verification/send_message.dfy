/** The optimistic send protocol of `sendMessage`: a guard, an optimistic
    append of a temporary "Sending..." message, and — once the request
    settles — replacement of that message by the server's copy, or nothing
    at all on failure. The two halves are separate steps so that socket
    pushes, chat switches and other sends may run in between. */
module SendMessage {
  import opened Wrappers
  import opened ChatTypes
  import MessageList
  import opened ChatStore

  /** The body posted to the server. */
  datatype SendRequest = SendRequest(chatId: Id, content: Option<string>, image: Option<string>, replyToId: Option<Id>)

  /** A send whose request is in flight, keyed by its temporary message id. */
  datatype Pending = Pending(tempId: Id, request: SendRequest)

  /** The state after the optimistic step, and the request it issued (none
      when the guard returned early). */
  datatype Started = Started(state: State, pending: Option<Pending>)

  /** The early-return guard: a chat id and a signed-in user with an id are
      both needed (`!chatId || !user?._id` returns). */
  predicate CanSend(payload: CreateMessagePayload, user: Option<User>) {
    payload.chatId != "" && user.Some? && user.value.id != ""
  }

  /** JavaScript's `x || ""` on an optional string. */
  function OrEmpty(x: Option<string>): (r: string)
    ensures x.Some? && x.value != "" ==> r == x.value
    ensures x.None? || x.value == "" ==> r == ""
  {
    match x
    case Some(v) => v
    case None => ""
  }

  /** JavaScript's `x || null` on an optional string: the empty string is dropped. */
  function OrNull(x: Option<string>): (r: Option<string>)
    ensures r.Some? <==> x.Some? && x.value != ""
    ensures r.Some? ==> r == x
  {
    if x.Some? && x.value != "" then x else None
  }

  /** The optimistic message built for a send. `createdAt` and `updatedAt`
      are the two clock readings taken while building it. */
  function TempMessage(payload: CreateMessagePayload, user: User, tempId: Id, createdAt: Timestamp, updatedAt: Timestamp): (m: Message)
    ensures m.id == tempId && m.chatId == payload.chatId && m.sender == user
    ensures m.status == Some(SendingStatus)
    ensures m.content == Some(OrEmpty(payload.content))
    ensures m.image == OrNull(payload.image) && m.replyTo == payload.replyTo
    ensures m.createdAt == createdAt && m.updatedAt == updatedAt
  {
    Message(tempId, payload.chatId, Some(OrEmpty(payload.content)), OrNull(payload.image),
            user, payload.replyTo, createdAt, updatedAt, Some(SendingStatus))
  }

  /** The request body: the caller's fields as given, the reply target by id. */
  function RequestOf(payload: CreateMessagePayload): (q: SendRequest)
    ensures q.chatId == payload.chatId && q.content == payload.content && q.image == payload.image
    ensures q.replyToId.Some? <==> payload.replyTo.Some?
    ensures payload.replyTo.Some? ==> q.replyToId == Some(payload.replyTo.value.id)
  {
    SendRequest(payload.chatId, payload.content, payload.image,
                match payload.replyTo case Some(m) => Some(m.id) case None => None)
  }

  /** The step of `sendMessage` up to its `await`. `tempId` stands for the
      value of `generateUUID()`, `createdAt` and `updatedAt` for the two clock
      readings; `user` is the
      identity store's current user. */
  function SendBegin(s: State, payload: CreateMessagePayload, user: Option<User>, tempId: Id, createdAt: Timestamp, updatedAt: Timestamp): (r: Started)
    ensures !CanSend(payload, user) ==> r == Started(s, None)
    ensures CanSend(payload, user) ==> r.pending == Some(Pending(tempId, RequestOf(payload)))
    ensures CanSend(payload, user) && !IsOpen(s, payload.chatId) ==> r.state == s
    ensures CanSend(payload, user) && IsOpen(s, payload.chatId) ==>
      && r.state == s.(singleChat := r.state.singleChat)
      && r.state.singleChat.Some?
      && r.state.singleChat.value.chat == s.singleChat.value.chat
      && var before := s.singleChat.value.messages;
         var after := r.state.singleChat.value.messages;
         after == before + [TempMessage(payload, user.value, tempId, createdAt, updatedAt)]
  {
    if !CanSend(payload, user) then Started(s, None)
    else
      var temp := TempMessage(payload, user.value, tempId, createdAt, updatedAt);
      var optimistic :=
        match s.singleChat
        case Some(open) =>
          if open.chat.id != payload.chatId then s
          else s.(singleChat := Some(open.(messages := open.messages + [temp])))
        case None => s;
      Started(optimistic, Some(Pending(tempId, RequestOf(payload))))
  }

  /** The step of `sendMessage` after its `await`. On success every message of
      whichever chat is open whose id is the temporary id is replaced by the
      server's message at the same position; on failure nothing is rolled
      back. */
  function SendSettle(s: State, p: Pending, response: Response<Message>): (t: State)
    ensures response.Failure? || s.singleChat.None? ==> t == s
    ensures s.singleChat.Some? && !MessageList.HasMessageId(s.singleChat.value.messages, p.tempId) ==> t == s
    ensures response.Success? && s.singleChat.Some? ==>
      && t == s.(singleChat := t.singleChat)
      && t.singleChat.Some?
      && t.singleChat.value.chat == s.singleChat.value.chat
      && var before := s.singleChat.value.messages;
         var after := t.singleChat.value.messages;
         && |after| == |before|
         && (forall i :: 0 <= i < |before| ==>
               after[i] == (if before[i].id == p.tempId then response.value else before[i]))
         && (response.value.id != p.tempId ==> !MessageList.HasMessageId(after, p.tempId))
  {
    match response
    case Failure => s
    case Success(userMessage) =>
      match s.singleChat
      case None => s
      case Some(open) =>
        s.(singleChat := Some(open.(messages := MessageList.ReplaceById(open.messages, p.tempId, userMessage))))
  }

  /** Send then confirm, with nothing in between and a fresh temporary id:
      the open chat ends exactly as if the server's message had been
      appended — the optimistic entry was replaced, not duplicated. */
  lemma SendRoundTrip(s: State, payload: CreateMessagePayload, user: Option<User>, tempId: Id, createdAt: Timestamp, updatedAt: Timestamp, confirmed: Message)
    requires CanSend(payload, user) && IsOpen(s, payload.chatId)
    requires !MessageList.HasMessageId(s.singleChat.value.messages, tempId)
    ensures var st := SendBegin(s, payload, user, tempId, createdAt, updatedAt);
            SendSettle(st.state, st.pending.value, Success(confirmed)) == AddNewMessage(s, payload.chatId, confirmed)
  {
    SendWithPushes(s, payload, user, tempId, createdAt, updatedAt, [], confirmed);
    PushAllAppends(AddNewMessage(s, payload.chatId, confirmed), payload.chatId, []);
  }

  /** Socket pushes that arrive while the request is in flight stay after the
      confirmed message: it takes the optimistic entry's position, and the
      pushed messages keep theirs. */
  lemma SendWithPushes(s: State, payload: CreateMessagePayload, user: Option<User>, tempId: Id, createdAt: Timestamp, updatedAt: Timestamp,
                       pushes: seq<Message>, confirmed: Message)
    requires CanSend(payload, user) && IsOpen(s, payload.chatId)
    requires !MessageList.HasMessageId(s.singleChat.value.messages, tempId)
    requires forall i :: 0 <= i < |pushes| ==> pushes[i].id != tempId
    ensures var st := SendBegin(s, payload, user, tempId, createdAt, updatedAt);
            SendSettle(PushAll(st.state, payload.chatId, pushes), st.pending.value, Success(confirmed))
              == PushAll(AddNewMessage(s, payload.chatId, confirmed), payload.chatId, pushes)
  {
    var id := payload.chatId;
    var open := s.singleChat.value;
    var temp := TempMessage(payload, user.value, tempId, createdAt, updatedAt);
    var st := SendBegin(s, payload, user, tempId, createdAt, updatedAt);
    assert st.state == s.(singleChat := Some(SingleChat(open.chat, open.messages + [temp])));
    assert st.pending.value.tempId == tempId;
    PushAllAppends(st.state, id, pushes);
    var pushed := PushAll(st.state, id, pushes);
    assert pushed == s.(singleChat := Some(SingleChat(open.chat, open.messages + [temp] + pushes)));
    MessageList.ReplaceFreshAppend(open.messages, temp, pushes, confirmed);
    assert SendSettle(pushed, st.pending.value, Success(confirmed))
        == s.(singleChat := Some(SingleChat(open.chat, open.messages + [confirmed] + pushes)));
    var appended := AddNewMessage(s, id, confirmed);
    PushAllAppends(appended, id, pushes);
  }

  /** A send to a chat that is not open changes nothing now and, with a fresh
      temporary id, nothing when it settles either — whatever the response. */
  lemma SendToClosedChat(s: State, payload: CreateMessagePayload, user: Option<User>, tempId: Id, createdAt: Timestamp, updatedAt: Timestamp,
                         response: Response<Message>)
    requires CanSend(payload, user) && !IsOpen(s, payload.chatId)
    requires s.singleChat.Some? ==> !MessageList.HasMessageId(s.singleChat.value.messages, tempId)
    ensures var st := SendBegin(s, payload, user, tempId, createdAt, updatedAt);
            SendSettle(st.state, st.pending.value, response) == s
  {
  }

  /** A failed send keeps its optimistic entry, still marked "Sending...". */
  lemma SendFailureKeepsPlaceholder(s: State, payload: CreateMessagePayload, user: Option<User>, tempId: Id, createdAt: Timestamp, updatedAt: Timestamp)
    requires CanSend(payload, user) && IsOpen(s, payload.chatId)
    ensures var st := SendBegin(s, payload, user, tempId, createdAt, updatedAt);
            var after := SendSettle(st.state, st.pending.value, Failure);
            && after == st.state
            && after.singleChat.Some?
            && after.singleChat.value.messages
               == s.singleChat.value.messages + [TempMessage(payload, user.value, tempId, createdAt, updatedAt)]
  {
  }
}
