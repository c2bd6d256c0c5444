/** Records of the chat client, as the repositories and view models use them.
    Strings are Kotlin strings (`seq<char>`); `Long` timestamps are unbounded integers. */
module Models {

  datatype Option<+T> = None | Some(value: T)

  /** A user document (`users/{uid}`). `profileImageUrl` is absent in records written by the
      legacy realtime-database code. */
  datatype User = User(uid: string, name: string, email: string, profileImageUrl: Option<string>)

  /** The payload kind stored in a message's `type` field ("text", "image", "document"). */
  datatype MessageType = Text | Image | Document

  /** A chat message as `ChatViewModel` builds it. The data class's defaults are an empty `id`,
      no `fileUrl` and no `fileName`. */
  datatype Message = Message(
    id: string,
    fromId: string,
    toId: string,
    text: string,
    messageType: MessageType,
    fileUrl: Option<string>,
    fileName: Option<string>,
    timestamp: int)

  /** The `status` field of a chat request: the repository writes only these three strings. */
  datatype RequestStatus = Pending | Accepted | Rejected

  function StatusString(s: RequestStatus): string {
    match s
    case Pending => "pending"
    case Accepted => "accepted"
    case Rejected => "rejected"
  }

  /** A document of the `chat_requests` collection. */
  datatype ChatRequest = ChatRequest(id: string, fromId: string, toId: string, status: RequestStatus, timestamp: int)

  /** A document of the `chats` collection, written when a request is accepted. */
  datatype ChatRecord = ChatRecord(chatId: string, participants: seq<string>, createdAt: int)

  /** The per-user connection state shown on the users screen. */
  datatype ConnectionStatus = NONE | SENT | RECEIVED | ACCEPTED | REJECTED

  /** The signed-in account as the identity provider reports it (`FirebaseUser`). */
  datatype AuthUser = AuthUser(uid: string, displayName: Option<string>, email: Option<string>)

  /** Outcome of a store write that the caller can observe. */
  datatype WriteOutcome = Written | Failed
}
