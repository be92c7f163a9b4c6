/** The chat store of `use-chat.ts` as a record and pure transitions over it.
    Each run of zustand `set` calls between two awaits becomes one function
    from state to state; an awaited request splits an action into a Begin
    step (before the `await`) and an End step that receives the request's
    response. */
module ChatStore {
  import opened Wrappers
  import opened ChatTypes
  import ChatList

  datatype State = State(
    chats: seq<Chat>,
    users: seq<User>,
    singleChat: Option<SingleChat>,
    areChatsLoading: bool,
    areUsersLoading: bool,
    isCreatingChat: bool,
    isSingleChatLoading: bool)

  /** The store as created: no chats, no users, nothing open, no flag raised. */
  function Initial(): (s: State)
    ensures s.chats == [] && s.users == [] && s.singleChat.None?
    ensures !s.areChatsLoading && !s.areUsersLoading && !s.isCreatingChat && !s.isSingleChatLoading
  {
    State([], [], None, false, false, false, false)
  }

  /** The open chat, if any, has identifier `id`. */
  predicate IsOpen(s: State, id: Id) {
    s.singleChat.Some? && s.singleChat.value.chat.id == id
  }

  // ---------------------------------------------------------------------
  // Chat-list maintenance

  /** `addNewChat`: the given chat goes to the front, replacing any stored
      copy; nothing but the chat list changes. */
  function AddNewChat(s: State, newChat: Chat): (t: State)
    ensures t == s.(chats := t.chats)
    ensures |t.chats| > 0 && t.chats[0] == newChat
    ensures t.chats[1..] == ChatList.Without(s.chats, newChat.id)
    ensures ChatList.UniqueIds(s.chats) ==> ChatList.UniqueIds(t.chats)
    ensures ChatList.UniqueIds(s.chats) && ChatList.HasId(s.chats, newChat.id) ==> |t.chats| == |s.chats|
    ensures !ChatList.HasId(s.chats, newChat.id) ==> t.chats == [newChat] + s.chats
  {
    s.(chats := ChatList.MoveToFront(s.chats, newChat))
  }

  /** `updateChatLastMessage`: an unknown chat id leaves the whole state as it
      was; otherwise that chat, with only `lastMessage` replaced, moves to the
      front and the others keep their order. */
  function UpdateChatLastMessage(s: State, chatId: Id, lastMessage: Message): (t: State)
    ensures !ChatList.HasId(s.chats, chatId) ==> t == s
    ensures ChatList.HasId(s.chats, chatId) ==>
      && t == s.(chats := t.chats)
      && |t.chats| > 0
      && t.chats[0] == s.chats[ChatList.FindIndex(s.chats, chatId)].(lastMessage := Some(lastMessage))
      && t.chats[1..] == ChatList.Without(s.chats, chatId)
    ensures ChatList.UniqueIds(s.chats) ==> ChatList.UniqueIds(t.chats) && |t.chats| == |s.chats|
  {
    if ChatList.Find(s.chats, chatId).None? then s
    else s.(chats := ChatList.UpdateLastMessage(s.chats, chatId, lastMessage))
  }

  /** Applying `addNewChat` to each chat of `cs` in turn. */
  function AddAll(s: State, cs: seq<Chat>): State
    decreases |cs|
  {
    if cs == [] then s else AddNewChat(AddAll(s, cs[..|cs| - 1]), cs[|cs| - 1])
  }

  /** After any sequence of `addNewChat` calls the list still has unique ids,
      the most recently added chat is at the front, and every added chat is in
      the list. */
  lemma {:induction false} AddAllUnique(s: State, cs: seq<Chat>)
    requires ChatList.UniqueIds(s.chats)
    ensures ChatList.UniqueIds(AddAll(s, cs).chats)
    ensures |cs| > 0 ==> AddAll(s, cs).chats[0] == cs[|cs| - 1]
    decreases |cs|
  {
    if cs != [] {
      AddAllUnique(s, cs[..|cs| - 1]);
    }
  }

  /** Every chat added along the way keeps a place in the list: later
      additions may replace its stored copy but never drop its id. */
  lemma {:induction false} AddAllKeepsIds(s: State, cs: seq<Chat>)
    ensures forall i :: 0 <= i < |cs| ==> ChatList.HasId(AddAll(s, cs).chats, cs[i].id)
    decreases |cs|
  {
    if cs != [] {
      var front := cs[..|cs| - 1];
      AddAllKeepsIds(s, front);
      var before := AddAll(s, front).chats;
      ChatList.MoveToFrontKeepsIds(before, cs[|cs| - 1]);
      forall i | 0 <= i < |cs| - 1
        ensures ChatList.HasId(before, cs[i].id)
      {
        assert cs[i] == front[i];
      }
    }
  }

  // ---------------------------------------------------------------------
  // Socket append path

  /** `addNewMessage`, called by the socket handler of the open chat view:
      the message is appended to the open chat when its id is `chatId`, and
      dropped otherwise. No deduplication; the chat list is not touched. */
  function AddNewMessage(s: State, chatId: Id, message: Message): (t: State)
    ensures !IsOpen(s, chatId) ==> t == s
    ensures IsOpen(s, chatId) ==>
      && t == s.(singleChat := t.singleChat)
      && t.singleChat.Some?
      && t.singleChat.value.chat == s.singleChat.value.chat
      && t.singleChat.value.messages == s.singleChat.value.messages + [message]
    ensures t.chats == s.chats
  {
    match s.singleChat
    case Some(open) =>
      if open.chat.id == chatId then
        s.(singleChat := Some(SingleChat(open.chat, open.messages + [message])))
      else s
    case None => s
  }

  /** Socket events delivered in order to the handler of the view showing
      chat `chatId`; the handler passes the view's id, not the message's. */
  function PushAll(s: State, chatId: Id, ms: seq<Message>): State
    decreases |ms|
  {
    if ms == [] then s else AddNewMessage(PushAll(s, chatId, ms[..|ms| - 1]), chatId, ms[|ms| - 1])
  }

  /** While the view's chat id names the open chat, a run of pushes appends
      them all, in delivery order and without dedup; when it does not, the
      run changes nothing. The messages' own chat ids are never consulted. */
  lemma {:induction false} PushAllAppends(s: State, chatId: Id, ms: seq<Message>)
    ensures !IsOpen(s, chatId) ==> PushAll(s, chatId, ms) == s
    ensures IsOpen(s, chatId) ==>
      PushAll(s, chatId, ms) == s.(singleChat := Some(SingleChat(s.singleChat.value.chat, s.singleChat.value.messages + ms)))
    decreases |ms|
  {
    if ms != [] {
      var front := ms[..|ms| - 1];
      var last := ms[|ms| - 1];
      PushAllAppends(s, chatId, front);
      if IsOpen(s, chatId) {
        var open := s.singleChat.value;
        var t := PushAll(s, chatId, front);
        assert t == s.(singleChat := Some(SingleChat(open.chat, open.messages + front)));
        assert IsOpen(t, chatId);
        assert front + [last] == ms;
        assert (open.messages + front) + [last] == open.messages + ms;
        assert AddNewMessage(t, chatId, last) == s.(singleChat := Some(SingleChat(open.chat, (open.messages + front) + [last])));
      }
    } else if IsOpen(s, chatId) {
      assert s.singleChat.value.messages + ms == s.singleChat.value.messages;
    }
  }

  /** A pushed message is appended to the open chat even when it names a
      different chat: only the view's id is compared with the open chat. */
  lemma PushIgnoresMessageChat(s: State, viewId: Id, m: Message)
    requires IsOpen(s, viewId) && m.chatId != viewId
    ensures AddNewMessage(s, viewId, m).singleChat.value.messages == s.singleChat.value.messages + [m]
  {
  }

  /** Replaying the same socket event twice appends it twice. */
  lemma AddNewMessageTwice(s: State, chatId: Id, m: Message)
    requires IsOpen(s, chatId)
    ensures AddNewMessage(AddNewMessage(s, chatId, m), chatId, m).singleChat.value.messages
         == s.singleChat.value.messages + [m, m]
  {
  }

  // ---------------------------------------------------------------------
  // Flag-bracketed requests: the flag is raised before the await and
  // cleared in `finally`, whatever the response.

  /** `fetchChats` before its request: only its loading flag changes; the
      data and the other three flags are left as they are. */
  function FetchChatsBegin(s: State): (t: State)
    ensures t == s.(areChatsLoading := true)
  {
    s.(areChatsLoading := true)
  }

  /** `fetchChats` once the request settles: success replaces the list
      wholesale, failure keeps it; the flag ends cleared either way. */
  function FetchChatsEnd(s: State, response: Response<seq<Chat>>): (t: State)
    ensures !t.areChatsLoading
    ensures response.Success? ==> t.chats == response.value
    ensures response.Failure? ==> t.chats == s.chats
    ensures t == s.(chats := t.chats, areChatsLoading := false)
  {
    var fetched := if response.Success? then s.(chats := response.value) else s;
    fetched.(areChatsLoading := false)
  }

  /** `fetchAllUsers` before its request. */
  function FetchUsersBegin(s: State): (t: State)
    ensures t == s.(areUsersLoading := true)
  {
    s.(areUsersLoading := true)
  }

  /** `fetchAllUsers` once the request settles. */
  function FetchUsersEnd(s: State, response: Response<seq<User>>): (t: State)
    ensures !t.areUsersLoading
    ensures response.Success? ==> t.users == response.value
    ensures response.Failure? ==> t.users == s.users
    ensures t == s.(users := t.users, areUsersLoading := false)
  {
    var fetched := if response.Success? then s.(users := response.value) else s;
    fetched.(areUsersLoading := false)
  }

  /** `fetchSingleChat` before its request. */
  function FetchSingleChatBegin(s: State): (t: State)
    ensures t == s.(isSingleChatLoading := true)
  {
    s.(isSingleChatLoading := true)
  }

  /** `fetchSingleChat` once the request settles: success opens the returned
      chat with its messages, failure keeps whatever was open. */
  function FetchSingleChatEnd(s: State, response: Response<SingleChat>): (t: State)
    ensures !t.isSingleChatLoading
    ensures response.Success? ==> t.singleChat == Some(response.value)
    ensures response.Failure? ==> t.singleChat == s.singleChat
    ensures t == s.(singleChat := t.singleChat, isSingleChatLoading := false)
  {
    var fetched := if response.Success? then s.(singleChat := Some(response.value)) else s;
    fetched.(isSingleChatLoading := false)
  }

  /** What `createChat` resolves to: the created chat, or null. */
  datatype Created = Created(state: State, chat: Option<Chat>)

  /** `createChat` before its request. */
  function CreateChatBegin(s: State): (t: State)
    ensures t == s.(isCreatingChat := true)
  {
    s.(isCreatingChat := true)
  }

  /** `createChat` once the request settles: on success the chat goes to the
      front via `addNewChat` and is returned; on failure null is returned and
      the list is unchanged. The flag ends cleared either way. */
  function CreateChatEnd(s: State, response: Response<Chat>): (r: Created)
    ensures !r.state.isCreatingChat
    ensures response.Success? ==>
      && r.chat == Some(response.value)
      && |r.state.chats| > 0 && r.state.chats[0] == response.value
      && r.state.chats[1..] == ChatList.Without(s.chats, response.value.id)
    ensures response.Failure? ==> r.chat.None? && r.state.chats == s.chats
    ensures r.state == s.(chats := r.state.chats, isCreatingChat := false)
  {
    match response
    case Success(chat) => Created(AddNewChat(s, chat).(isCreatingChat := false), Some(chat))
    case Failure => Created(s.(isCreatingChat := false), None)
  }

  /** The two steps of `createChat` together: the flag is up while the
      request is in flight and down afterwards, and a failure leaves the
      store exactly as it was apart from the cleared flag. */
  lemma CreateChatBracket(s: State, response: Response<Chat>)
    ensures CreateChatBegin(s).isCreatingChat
    ensures !CreateChatEnd(CreateChatBegin(s), response).state.isCreatingChat
    ensures response.Failure? ==> CreateChatEnd(CreateChatBegin(s), response).state == s.(isCreatingChat := false)
    ensures response.Success? && ChatList.UniqueIds(s.chats) ==>
      ChatList.UniqueIds(CreateChatEnd(CreateChatBegin(s), response).state.chats)
  {
  }

  /** The two steps of `fetchChats` together: a failure leaves the list as it
      was and clears the flag. */
  lemma FetchChatsBracket(s: State, response: Response<seq<Chat>>)
    ensures FetchChatsBegin(s).areChatsLoading
    ensures response.Failure? ==> FetchChatsEnd(FetchChatsBegin(s), response) == s.(areChatsLoading := false)
    ensures response.Success? ==> FetchChatsEnd(FetchChatsBegin(s), response) == s.(chats := response.value, areChatsLoading := false)
  {
  }

  /** The two steps of `fetchAllUsers` together. */
  lemma FetchUsersBracket(s: State, response: Response<seq<User>>)
    ensures FetchUsersBegin(s).areUsersLoading
    ensures response.Failure? ==> FetchUsersEnd(FetchUsersBegin(s), response) == s.(areUsersLoading := false)
    ensures response.Success? ==> FetchUsersEnd(FetchUsersBegin(s), response) == s.(users := response.value, areUsersLoading := false)
  {
  }

  /** The two steps of `fetchSingleChat` together: a failure keeps whatever
      chat was open, a success opens the fetched one. */
  lemma FetchSingleChatBracket(s: State, response: Response<SingleChat>)
    ensures FetchSingleChatBegin(s).isSingleChatLoading
    ensures response.Failure? ==> FetchSingleChatEnd(FetchSingleChatBegin(s), response) == s.(isSingleChatLoading := false)
    ensures response.Success? ==>
      FetchSingleChatEnd(FetchSingleChatBegin(s), response) == s.(singleChat := Some(response.value), isSingleChatLoading := false)
  {
  }
}
