/** `ChatViewModel`: the `_messages` list of an open conversation, replaced by each delivered
    snapshot, and the three send operations. Text is sent as it is; an image or a document is
    uploaded first and sent only when the upload produced a URL. */
module ChatBoxViewModel {
  import opened Models
  import opened PairKey
  import opened MessageOrder
  import opened ChatRepo

  /** The upload folder for images. */
  const ImageFolder: string := "chat_images"
  /** The upload folder for documents. */
  const DocumentFolder: string := "chat_documents"
  /** The unsigned upload preset both uploads use. */
  const UploadPreset: string := "chat_upload"

  /** The media upload, given the local URI, the folder and the preset: the secure URL it
      reports, or `None` when it fails (the exception the send methods catch). */
  type Upload = (string, string, string) -> Option<string>

  /** The fields a message of each kind carries. */
  predicate WellFormed(m: Message) {
    match m.messageType
    case Text => m.fileUrl.None? && m.fileName.None?
    case Image => m.text == "" && m.fileUrl.Some? && m.fileName.None?
    case Document => m.text == "" && m.fileUrl.Some? && m.fileName.Some?
  }

  /** The message `sendTextMessage` builds. */
  function TextMessage(fromId: string, toId: string, text: string, now: int): (m: Message)
    ensures WellFormed(m) && m.messageType == Text
    ensures m.fromId == fromId && m.toId == toId && m.text == text && m.timestamp == now && m.id == ""
  {
    Message("", fromId, toId, text, Text, None, None, now)
  }

  /** The message `sendImageMessage` builds around the uploaded URL. */
  function ImageMessage(fromId: string, toId: string, fileUrl: string, now: int): (m: Message)
    ensures WellFormed(m) && m.messageType == Image
    ensures m.fromId == fromId && m.toId == toId && m.fileUrl == Some(fileUrl) && m.timestamp == now && m.id == ""
  {
    Message("", fromId, toId, "", Image, Some(fileUrl), None, now)
  }

  /** The message `sendDocumentMessage` builds around the uploaded URL and the file name. */
  function DocumentMessage(fromId: string, toId: string, fileUrl: string, fileName: string, now: int): (m: Message)
    ensures WellFormed(m) && m.messageType == Document
    ensures m.fromId == fromId && m.toId == toId && m.fileUrl == Some(fileUrl) && m.fileName == Some(fileName)
    ensures m.timestamp == now && m.id == ""
  {
    Message("", fromId, toId, "", Document, Some(fileUrl), Some(fileName), now)
  }

  /** A well-formed message without an id is exactly what the builder of its kind makes from
      its own fields: nothing else goes into a message. */
  lemma BuiltFromItsFields(m: Message)
    requires WellFormed(m) && m.id == ""
    ensures m.messageType == Text ==> m == TextMessage(m.fromId, m.toId, m.text, m.timestamp)
    ensures m.messageType == Image ==> m == ImageMessage(m.fromId, m.toId, m.fileUrl.value, m.timestamp)
    ensures m.messageType == Document ==> m == DocumentMessage(m.fromId, m.toId, m.fileUrl.value, m.fileName.value, m.timestamp)
  {
  }

  class ChatViewModel {
    /** `_messages`. */
    var messages: seq<Message>
    const chatRepository: ChatRepository

    constructor(chatRepository: ChatRepository)
      ensures this.chatRepository == chatRepository && messages == []
    {
      this.chatRepository := chatRepository;
      messages := [];
    }

    /** One event of the message listener: a delivered snapshot, the pair's conversation in
        ascending timestamp order, replaces `_messages`; an error leaves it as it was. */
    method LoadMessages(currentUserId: string, otherUserId: string, listenerError: bool)
      modifies this
      ensures listenerError ==> messages == old(messages)
      ensures !listenerError ==> SortedBy(messages, Ascending)
      ensures !listenerError ==>
        multiset(messages) == multiset(Stored(chatRepository.conversations, ChatId(currentUserId, otherUserId)))
    {
      var snapshot := chatRepository.LoadMessages(currentUserId, otherUserId, listenerError);
      if snapshot.Some? {
        messages := snapshot.value;
      }
    }

    /** `sendTextMessage`: no check for blank text or empty ids. */
    method SendTextMessage(fromId: string, toId: string, text: string, now: int)
      requires chatRepository.Valid()
      modifies chatRepository
      ensures chatRepository.Valid()
      ensures chatRepository.conversations == Appended(old(chatRepository.conversations), TextMessage(fromId, toId, text, now))
    {
      chatRepository.SendMessage(TextMessage(fromId, toId, text, now));
    }

    /** `sendImageMessage`: uploads to the image folder, then sends; a failed upload sends
        nothing. */
    method SendImageMessage(fromId: string, toId: string, imageUri: string, upload: Upload, now: int)
      requires chatRepository.Valid()
      modifies chatRepository
      ensures chatRepository.Valid()
      ensures upload(imageUri, ImageFolder, UploadPreset).None? ==>
        chatRepository.conversations == old(chatRepository.conversations)
      ensures upload(imageUri, ImageFolder, UploadPreset).Some? ==>
        chatRepository.conversations == Appended(old(chatRepository.conversations),
          ImageMessage(fromId, toId, upload(imageUri, ImageFolder, UploadPreset).value, now))
    {
      var imageUrl := upload(imageUri, ImageFolder, UploadPreset);
      if imageUrl.None? {
        return;
      }
      chatRepository.SendMessage(ImageMessage(fromId, toId, imageUrl.value, now));
    }

    /** `sendDocumentMessage`: uploads to the document folder, then sends with the given file
        name; a failed upload sends nothing. */
    method SendDocumentMessage(fromId: string, toId: string, fileUri: string, fileName: string, upload: Upload, now: int)
      requires chatRepository.Valid()
      modifies chatRepository
      ensures chatRepository.Valid()
      ensures upload(fileUri, DocumentFolder, UploadPreset).None? ==>
        chatRepository.conversations == old(chatRepository.conversations)
      ensures upload(fileUri, DocumentFolder, UploadPreset).Some? ==>
        chatRepository.conversations == Appended(old(chatRepository.conversations),
          DocumentMessage(fromId, toId, upload(fileUri, DocumentFolder, UploadPreset).value, fileName, now))
    {
      var fileUrl := upload(fileUri, DocumentFolder, UploadPreset);
      if fileUrl.None? {
        return;
      }
      chatRepository.SendMessage(DocumentMessage(fromId, toId, fileUrl.value, fileName, now));
    }
  }
}
