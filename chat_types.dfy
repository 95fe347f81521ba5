/**
 * The records of src/types/chat.ts. Optional properties (`lastSeen?`, `type?`,
 * `userVote?`, ...) are `Option`s; the `type` property of a message is called `kind`
 * here because `type` is a Dafny keyword.
 */
module ChatTypes {
  import opened Optional

  /** `'online' | 'offline'`. */
  datatype Status = Online | Offline

  datatype Contact = Contact(
    id: int,
    name: string,
    avatar: string,
    status: Status,
    lastSeen: Option<string>)

  /** One answer of a poll. Vote counts start at 0 and only ever grow by one, so they
      are natural numbers. */
  datatype PollOption = PollOption(id: int, text: string, votes: nat)

  /** `'text' | 'audio' | 'video' | 'file' | 'poll'`. */
  datatype Kind = Text | Audio | Video | File | Poll

  datatype Message = Message(
    id: int,
    text: string,
    time: string,
    sent: bool,
    read: bool,
    kind: Option<Kind>,
    duration: Option<nat>,
    audioUrl: Option<string>,
    videoUrl: Option<string>,
    fileName: Option<string>,
    fileSize: Option<string>,
    fileUrl: Option<string>,
    pollQuestion: Option<string>,
    pollOptions: Option<seq<PollOption>>,
    userVote: Option<int>)

  /** A conversation: its contact, its ordered messages, and the denormalised preview
      (`lastMessage`, `time`) and `unread` counter shown in the chat list. */
  datatype Chat = Chat(
    id: int,
    contact: Contact,
    lastMessage: string,
    time: string,
    unread: int,
    messages: seq<Message>)

  /** JavaScript truthiness of a `number | undefined` (or `number | null`): present and
      not zero. This is what `if (selectedChat)` and `!message.userVote` test. */
  predicate Truthy(n: Option<int>) {
    n.Some? && n.value != 0
  }
}
