/** The records the chat store holds: users, messages, chats and the open chat. */
module ChatTypes {
  import opened Wrappers

  /** Server-assigned or locally generated identifier (`_id`). */
  type Id = string

  /** An ISO-8601 timestamp string; its contents are never inspected. */
  type Timestamp = string

  datatype User = User(id: Id, name: string, avatar: Option<string>, isAI: bool)

  /** A chat message. `status` is local-only: the optimistic copy carries
      `"Sending..."`, messages from the server carry none. */
  datatype Message = Message(
    id: Id,
    chatId: Id,
    content: Option<string>,
    image: Option<string>,
    sender: User,
    replyTo: Option<Message>,
    createdAt: Timestamp,
    updatedAt: Timestamp,
    status: Option<string>)

  datatype Chat = Chat(
    id: Id,
    participants: seq<User>,
    isGroup: bool,
    groupName: Option<string>,
    isAIChat: bool,
    lastMessage: Option<Message>)

  /** The chat currently open in the UI together with its messages in the
      order the store received them: the fetched list, then appends in
      arrival order, with a confirmed message keeping its optimistic entry's
      slot. */
  datatype SingleChat = SingleChat(chat: Chat, messages: seq<Message>)

  /** What the composer hands to `sendMessage`. An absent `chatId` is modelled
      as the empty string: both are falsy for the guard. */
  datatype CreateMessagePayload = CreateMessagePayload(
    chatId: Id,
    content: Option<string>,
    image: Option<string>,
    replyTo: Option<Message>)

  /** Status text of an optimistic message awaiting confirmation. */
  const SendingStatus: string := "Sending..."
}
