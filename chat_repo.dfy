/** The live `ChatRepository`: one `messages` sub-collection per conversation
    (`chats/{chatId}/messages`), appended to by `sendMessage` and read back, ordered by
    timestamp, by `loadMessages`. */
module ChatRepo {
  import opened Models
  import opened PairKey
  import opened MessageOrder

  /** The messages stored under a conversation key; a conversation nobody wrote to is empty. */
  function Stored(conversations: map<string, seq<Message>>, chatId: string): seq<Message> {
    if chatId in conversations then conversations[chatId] else []
  }

  /** Every stored message sits in the conversation of its own sender and recipient. */
  ghost predicate ConversationsKeyed(conversations: map<string, seq<Message>>) {
    forall k, i :: k in conversations && 0 <= i < |conversations[k]| ==>
      ChatId(conversations[k][i].fromId, conversations[k][i].toId) == k
  }

  /** The conversations after adding `message` to the one of its sender and recipient; every
      other conversation is as it was. */
  function Appended(conversations: map<string, seq<Message>>, message: Message): (r: map<string, seq<Message>>)
    ensures r.Keys == conversations.Keys + {ChatId(message.fromId, message.toId)}
    ensures Stored(r, ChatId(message.fromId, message.toId)) == Stored(conversations, ChatId(message.fromId, message.toId)) + [message]
    ensures forall k :: k != ChatId(message.fromId, message.toId) ==> Stored(r, k) == Stored(conversations, k)
  {
    var chatId := ChatId(message.fromId, message.toId);
    conversations[chatId := Stored(conversations, chatId) + [message]]
  }

  /** Adding a message keeps every message in the conversation of its own pair. */
  lemma AppendedKeepsKeys(conversations: map<string, seq<Message>>, message: Message)
    requires ConversationsKeyed(conversations)
    ensures ConversationsKeyed(Appended(conversations, message))
  {
    var r: map<string, seq<Message>> := Appended(conversations, message);
    forall k: string, i: int | k in r && 0 <= i < |r[k]|
      ensures ChatId(r[k][i].fromId, r[k][i].toId) == k
    {
      if k == ChatId(message.fromId, message.toId) && i < |Stored(conversations, k)| {
        assert r[k][i] == Stored(conversations, k)[i];
      }
    }
  }

  class ChatRepository {
    /** The message sub-collections, by chat id, in the order they were added. */
    var conversations: map<string, seq<Message>>

    ghost predicate Valid()
      reads this
    {
      ConversationsKeyed(conversations)
    }

    constructor()
      ensures Valid() && conversations == map[]
    {
      conversations := map[];
    }

    /** `sendMessage`: adds the message, as given, to the conversation of its sender and
        recipient; `id` and `timestamp` are whatever the caller put in. */
    method SendMessage(message: Message)
      requires Valid()
      modifies this
      ensures Valid()
      ensures conversations == Appended(old(conversations), message)
    {
      AppendedKeepsKeys(conversations, message);
      conversations := Appended(conversations, message);
    }

    /** One delivery of the `loadMessages` listener: the pair's conversation in ascending
        timestamp order, or no callback at all (`None`) when the listener reports an error. */
    method LoadMessages(currentUserId: string, otherUserId: string, listenerError: bool) returns (snapshot: Option<seq<Message>>)
      ensures listenerError ==> snapshot == None
      ensures !listenerError ==> snapshot.Some? && SortedBy(snapshot.value, Ascending)
      ensures !listenerError ==>
        multiset(snapshot.value) == multiset(Stored(conversations, ChatId(currentUserId, otherUserId)))
    {
      if listenerError {
        return None;
      }
      var chatId := ChatId(currentUserId, otherUserId);
      snapshot := Some(SortByTimestamp(Stored(conversations, chatId), Ascending));
    }
  }

  /** Both participants read the same conversation, whoever sent the message. */
  lemma LoadIsSymmetric(conversations: map<string, seq<Message>>, a: string, b: string)
    ensures Stored(conversations, ChatId(a, b)) == Stored(conversations, ChatId(b, a))
  {
    ChatIdSymmetric(a, b);
  }

  /** A message just sent is in every later delivery to either participant, and in the
      recipient's as well as the sender's. */
  lemma SentMessageIsDelivered(conversations: map<string, seq<Message>>, message: Message)
    ensures message in SortByTimestamp(Stored(Appended(conversations, message), ChatId(message.fromId, message.toId)), Ascending)
    ensures message in SortByTimestamp(Stored(Appended(conversations, message), ChatId(message.toId, message.fromId)), Ascending)
  {
    var after := Appended(conversations, message);
    ChatIdSymmetric(message.fromId, message.toId);
    SortedSnapshotHasEveryMessage(Stored(after, ChatId(message.fromId, message.toId)), message, Ascending);
  }

  /** With ids free of the separator, the conversation read for `a` and `b` holds only
      messages between `a` and `b`. */
  lemma ConversationHoldsOnlyThePair(conversations: map<string, seq<Message>>, a: string, b: string, m: Message)
    requires ConversationsKeyed(conversations)
    requires m in Stored(conversations, ChatId(a, b))
    requires Separator !in a && Separator !in b && Separator !in m.fromId && Separator !in m.toId
    ensures (m.fromId == a && m.toId == b) || (m.fromId == b && m.toId == a)
  {
    var k := ChatId(a, b);
    var i :| 0 <= i < |conversations[k]| && conversations[k][i] == m;
    ChatIdInjective(m.fromId, m.toId, a, b);
  }
}
