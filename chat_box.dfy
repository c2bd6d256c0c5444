/** The composer of the chat screen: the typed text and the selected attachment (URI, kind,
    file name), the two pickers, the clear button, and the send button, which sends at most
    one message and then empties the composer. */
module ChatBox {
  import opened Models
  import opened KotlinText
  import opened PairKey
  import opened ChatRepo
  import opened MessageOrder
  import opened ChatBoxViewModel

  /** What one press of the send button hands to the view model. */
  datatype Dispatch =
    | SendImage(uri: string)
    | SendDocument(uri: string, fileName: string)
    | SendText(text: string)
    | NothingSent

  /** The send button's choice: an image attachment, else a document attachment (named
      "Document" when it has no name), else the text when it is not blank, else nothing. */
  function DispatchFor(messageText: string, selectedUri: Option<string>, selectedType: Option<MessageType>, selectedFileName: Option<string>): (d: Dispatch)
    ensures d.SendImage? <==> selectedUri.Some? && selectedType == Some(Image)
    ensures d.SendImage? ==> d.uri == selectedUri.value
    ensures d.SendDocument? <==> selectedUri.Some? && selectedType == Some(Document)
    ensures d.SendDocument? ==> d.uri == selectedUri.value
    ensures d.SendDocument? ==> d.fileName == (if selectedFileName.Some? then selectedFileName.value else "Document")
    ensures d.SendText? ==> d.text == messageText && !IsBlank(messageText)
    ensures d == NothingSent <==>
      IsBlank(messageText) && !(selectedUri.Some? && (selectedType == Some(Image) || selectedType == Some(Document)))
  {
    if selectedUri.Some? && selectedType == Some(Image) then SendImage(selectedUri.value)
    else if selectedUri.Some? && selectedType == Some(Document) then
      SendDocument(selectedUri.value, if selectedFileName.Some? then selectedFileName.value else "Document")
    else if !IsBlank(messageText) then SendText(messageText)
    else NothingSent
  }

  /** The conversations after the view model has carried out a dispatch from `fromId` to
      `toId`: an attachment is sent only when its upload produced a URL. */
  function AfterDispatch(conversations: map<string, seq<Message>>, d: Dispatch, fromId: string, toId: string, upload: Upload, now: int): map<string, seq<Message>> {
    match d
    case NothingSent => conversations
    case SendText(text) => Appended(conversations, TextMessage(fromId, toId, text, now))
    case SendImage(uri) =>
      var url := upload(uri, ImageFolder, UploadPreset);
      if url.Some? then Appended(conversations, ImageMessage(fromId, toId, url.value, now)) else conversations
    case SendDocument(uri, fileName) =>
      var url := upload(uri, DocumentFolder, UploadPreset);
      if url.Some? then Appended(conversations, DocumentMessage(fromId, toId, url.value, fileName, now)) else conversations
  }

  /** A press of the send button adds at most one message, a well-formed one from `fromId` to
      `toId`, and only to their conversation. */
  lemma AtMostOneMessage(conversations: map<string, seq<Message>>, d: Dispatch, fromId: string, toId: string, upload: Upload, now: int)
    ensures var after := AfterDispatch(conversations, d, fromId, toId, upload, now);
      after == conversations ||
      exists m: Message :: m.fromId == fromId && m.toId == toId && WellFormed(m) && after == Appended(conversations, m)
  {
    var after := AfterDispatch(conversations, d, fromId, toId, upload, now);
    match d
    case NothingSent =>
    case SendText(text) =>
      assert after == Appended(conversations, TextMessage(fromId, toId, text, now));
    case SendImage(uri) =>
      var url := upload(uri, ImageFolder, UploadPreset);
      if url.Some? {
        assert after == Appended(conversations, ImageMessage(fromId, toId, url.value, now));
      }
    case SendDocument(uri, fileName) =>
      var url := upload(uri, DocumentFolder, UploadPreset);
      if url.Some? {
        assert after == Appended(conversations, DocumentMessage(fromId, toId, url.value, fileName, now));
      }
  }

  /** The chat screen's `isMe`: the message was sent by the signed-in user. */
  predicate IsMe(currentUserId: string, msg: Message) {
    msg.fromId == currentUserId
  }

  /** In a conversation read for `me` and `other` (ids without the separator, and different),
      a message on my side was sent to `other`, and every other message was sent by `other` to
      me. */
  lemma IsMeSplitsConversation(conversations: map<string, seq<Message>>, me: string, other: string, m: Message)
    requires ConversationsKeyed(conversations)
    requires m in Stored(conversations, ChatId(me, other))
    requires me != other
    requires Separator !in me && Separator !in other && Separator !in m.fromId && Separator !in m.toId
    ensures IsMe(me, m) ==> m.toId == other
    ensures !IsMe(me, m) ==> m.fromId == other && m.toId == me
  {
    ConversationHoldsOnlyThePair(conversations, me, other, m);
  }

  class ChatBoxScreen {
    const currentUserId: string
    const otherUserId: string
    const chatViewModel: ChatViewModel
    /** `messageText`. */
    var messageText: string
    /** `selectedUri`. */
    var selectedUri: Option<string>
    /** `selectedType`: only the pickers set it, to "image" or "document". */
    var selectedType: Option<MessageType>
    /** `selectedFileName`. */
    var selectedFileName: Option<string>

    /** An attachment comes with its kind; an image has no file name and a document has one. */
    ghost predicate Valid()
      reads this
    {
      && (selectedUri.None? <==> selectedType.None?)
      && selectedType != Some(Text)
      && (selectedType != Some(Document) <==> selectedFileName.None?)
    }

    /** The composer starts empty. */
    constructor(currentUserId: string, otherUserId: string, chatViewModel: ChatViewModel)
      ensures Valid()
      ensures this.currentUserId == currentUserId && this.otherUserId == otherUserId && this.chatViewModel == chatViewModel
      ensures messageText == "" && selectedUri == None && selectedType == None && selectedFileName == None
    {
      this.currentUserId := currentUserId;
      this.otherUserId := otherUserId;
      this.chatViewModel := chatViewModel;
      messageText := "";
      selectedUri := None;
      selectedType := None;
      selectedFileName := None;
    }

    /** The screen opening on `otherUserId` starts the message listener; this is one of its
        events. */
    method OnMessagesEvent(listenerError: bool)
      modifies chatViewModel
      ensures listenerError ==> chatViewModel.messages == old(chatViewModel.messages)
      ensures !listenerError ==> SortedBy(chatViewModel.messages, Ascending)
      ensures !listenerError ==>
        multiset(chatViewModel.messages) ==
        multiset(Stored(chatViewModel.chatRepository.conversations, ChatId(currentUserId, otherUserId)))
    {
      chatViewModel.LoadMessages(currentUserId, otherUserId, listenerError);
    }

    /** The image picker's result: a picked URI becomes an image attachment without a name;
        a cancelled pick changes nothing. */
    method OnImagePicked(result: Option<string>)
      requires Valid()
      modifies this
      ensures Valid()
      ensures result.None? ==> selectedUri == old(selectedUri) && selectedType == old(selectedType) && selectedFileName == old(selectedFileName)
      ensures result.Some? ==> selectedUri == result && selectedType == Some(Image) && selectedFileName == None
      ensures messageText == old(messageText)
    {
      if result.Some? {
        selectedUri := result;
        selectedType := Some(Image);
        selectedFileName := None;
      }
    }

    /** The document picker's result: a picked URI becomes a document attachment named by
        `fileNameOf` (the display-name lookup); a cancelled pick changes nothing. */
    method OnDocumentPicked(result: Option<string>, fileNameOf: string -> string)
      requires Valid()
      modifies this
      ensures Valid()
      ensures result.None? ==> selectedUri == old(selectedUri) && selectedType == old(selectedType) && selectedFileName == old(selectedFileName)
      ensures result.Some? ==> selectedUri == result && selectedType == Some(Document) && selectedFileName == Some(fileNameOf(result.value))
      ensures messageText == old(messageText)
    {
      if result.Some? {
        selectedUri := result;
        selectedType := Some(Document);
        selectedFileName := Some(fileNameOf(result.value));
      }
    }

    /** The clear button of the attachment preview: the attachment goes, the text stays. */
    method OnClear()
      modifies this
      ensures Valid()
      ensures selectedUri == None && selectedType == None && selectedFileName == None
      ensures messageText == old(messageText)
    {
      selectedUri := None;
      selectedType := None;
      selectedFileName := None;
    }

    /** Typing in the text field. */
    method OnMessageTextChange(text: string)
      requires Valid()
      modifies this
      ensures Valid()
      ensures messageText == text
      ensures selectedUri == old(selectedUri) && selectedType == old(selectedType) && selectedFileName == old(selectedFileName)
    {
      messageText := text;
    }

    /** The send button: hands at most one message to the view model, chosen by
        `DispatchFor`, then empties the text and the attachment whichever branch ran. */
    method OnSendClick(upload: Upload, now: int) returns (d: Dispatch)
      requires Valid() && chatViewModel.chatRepository.Valid()
      modifies this, chatViewModel.chatRepository
      ensures Valid() && chatViewModel.chatRepository.Valid()
      ensures d == DispatchFor(old(messageText), old(selectedUri), old(selectedType), old(selectedFileName))
      ensures chatViewModel.chatRepository.conversations ==
        AfterDispatch(old(chatViewModel.chatRepository.conversations), d, currentUserId, otherUserId, upload, now)
      ensures messageText == "" && selectedUri == None && selectedType == None && selectedFileName == None
    {
      d := DispatchFor(messageText, selectedUri, selectedType, selectedFileName);
      match d {
        case SendImage(uri) =>
          chatViewModel.SendImageMessage(currentUserId, otherUserId, uri, upload, now);
        case SendDocument(uri, fileName) =>
          chatViewModel.SendDocumentMessage(currentUserId, otherUserId, uri, fileName, upload, now);
        case SendText(text) =>
          chatViewModel.SendTextMessage(currentUserId, otherUserId, text, now);
        case NothingSent =>
      }
      messageText := "";
      selectedUri := None;
      selectedType := None;
      selectedFileName := None;
    }
  }

  /** In a composer state the pickers can reach, a document always has its picked name, so
      the "Document" fallback name is never sent; and an attachment is sent exactly when one
      is selected. */
  lemma FallbackNameUnused(messageText: string, selectedUri: Option<string>, selectedType: Option<MessageType>, selectedFileName: Option<string>)
    requires selectedUri.None? <==> selectedType.None?
    requires selectedType != Some(Text)
    requires selectedType != Some(Document) <==> selectedFileName.None?
    ensures var d := DispatchFor(messageText, selectedUri, selectedType, selectedFileName);
      && (d.SendDocument? ==> d.fileName == selectedFileName.value)
      && ((d.SendImage? || d.SendDocument?) <==> selectedUri.Some?)
  {
    if selectedUri.Some? {
      var kind := selectedType.value;
      assert kind != Text;
      assert kind == Image || kind == Document;
    }
  }
}
