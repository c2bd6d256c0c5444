/** `ChatRequestRepository`: the `chat_requests` and `chats` collections of the document store,
    the two live queries over the requests, and the send / accept / reject writes. */
module ChatReqRepo {
  import opened Models
  import opened Lists
  import opened PairKey

  /** The incoming query: `toId == userId` and `status == "pending"`. */
  predicate IsIncomingFor(q: ChatRequest, userId: string) {
    q.toId == userId && q.status == Pending
  }

  /** The outgoing query: `fromId == userId` and `status in ["pending", "accepted"]`. */
  predicate IsOutgoingFor(q: ChatRequest, userId: string) {
    q.fromId == userId && (q.status == Pending || q.status == Accepted)
  }

  /** The list `listenIncomingRequests` hands its callback for one snapshot event of the
      request documents. The listener ignores the error argument, so an event that carries no
      snapshot delivers the empty list. */
  function IncomingRequests(userId: string, snapshot: Option<seq<ChatRequest>>): (r: seq<ChatRequest>)
    ensures snapshot.None? ==> r == []
    ensures snapshot.Some? ==> IsSubsequence(r, snapshot.value)
    ensures snapshot.Some? ==>
      forall q :: q in r <==> q in snapshot.value && q.toId == userId && q.status == Pending
    ensures snapshot.Some? ==>
      forall q :: multiset(r)[q] == if IsIncomingFor(q, userId) then multiset(snapshot.value)[q] else 0
  {
    match snapshot
    case None => []
    case Some(docs) => Filter(docs, q => IsIncomingFor(q, userId))
  }

  /** The list `listenOutgoingRequests` hands its callback for one snapshot event. */
  function OutgoingRequests(userId: string, snapshot: Option<seq<ChatRequest>>): (r: seq<ChatRequest>)
    ensures snapshot.None? ==> r == []
    ensures snapshot.Some? ==> IsSubsequence(r, snapshot.value)
    ensures snapshot.Some? ==>
      forall q :: q in r <==> q in snapshot.value && q.fromId == userId && q.status != Rejected
    ensures snapshot.Some? ==>
      forall q :: multiset(r)[q] == if IsOutgoingFor(q, userId) then multiset(snapshot.value)[q] else 0
  {
    match snapshot
    case None => []
    case Some(docs) => Filter(docs, q => IsOutgoingFor(q, userId))
  }

  /** `docs` is a snapshot of the collection `table`: it lists every document, as stored. */
  ghost predicate IsSnapshotOf(docs: seq<ChatRequest>, table: map<string, ChatRequest>) {
    && (forall i :: 0 <= i < |docs| ==> docs[i].id in table && table[docs[i].id] == docs[i])
    && (forall k :: k in table ==> table[k] in docs)
  }

  /** Every request document is stored under its own `id`. */
  ghost predicate RequestsKeyed(requests: map<string, ChatRequest>) {
    forall k :: k in requests ==> requests[k].id == k
  }

  /** Every chat document is stored under the pair key of its two participants. */
  ghost predicate ChatsKeyed(chats: map<string, ChatRecord>) {
    forall k :: k in chats ==>
      && chats[k].chatId == k
      && |chats[k].participants| == 2
      && ChatId(chats[k].participants[0], chats[k].participants[1]) == k
  }

  /** `requestsRef.document(id).update("status", status)`: on a missing document the update
      fails and nothing changes; otherwise only that document's status field changes. */
  function UpdateStatus(requests: map<string, ChatRequest>, id: string, status: RequestStatus): (r: map<string, ChatRequest>)
    ensures r.Keys == requests.Keys
    ensures forall k :: k in requests && k != id ==> r[k] == requests[k]
    ensures id in requests ==> r[id].status == status
    ensures id in requests ==> r[id] == requests[id].(status := status)
  {
    if id in requests then requests[id := requests[id].(status := status)] else requests
  }

  /** The chat document `acceptRequest` writes for a request. */
  function ChatFor(request: ChatRequest, now: int): (c: ChatRecord)
    ensures c.chatId == ChatId(request.fromId, request.toId)
    ensures c.participants == [request.fromId, request.toId]
    ensures c.createdAt == now
  {
    ChatRecord(ChatId(request.fromId, request.toId), [request.fromId, request.toId], now)
  }

  /** How far `acceptRequest` got: the chat write failed, the chat was written but the status
      update failed, or both writes went through. */
  datatype AcceptOutcome = ChatWriteFailed | StatusUpdateFailed | AcceptDone

  class ChatRequestRepository {
    /** The `chat_requests` collection, by document id. */
    var requests: map<string, ChatRequest>
    /** The `chats` collection, by chat id. */
    var chats: map<string, ChatRecord>

    ghost predicate Valid()
      reads this
    {
      RequestsKeyed(requests) && ChatsKeyed(chats)
    }

    constructor()
      ensures Valid()
      ensures requests == map[] && chats == map[]
    {
      requests := map[];
      chats := map[];
    }

    /** `sendRequest`: `docId` is the id the store picks for the new document. There is no
        check for an existing request between the two users, nor for `fromId == toId`. */
    method SendRequest(fromId: string, toId: string, docId: string, now: int)
      requires Valid()
      modifies this
      ensures Valid()
      ensures requests == old(requests)[docId := ChatRequest(docId, fromId, toId, Pending, now)]
      ensures chats == old(chats)
      ensures docId !in old(requests) ==> |requests| == |old(requests)| + 1
    {
      requests := requests[docId := ChatRequest(docId, fromId, toId, Pending, now)];
    }

    /** `acceptRequest`: first sets the chat document for the pair (overwriting one that is
        there), then updates the request's status. `chatWriteOk` is whether the store accepted
        the first write; when it did not, the second is never issued. The request's current
        status is not looked at. */
    method AcceptRequest(request: ChatRequest, chatWriteOk: bool, now: int) returns (outcome: AcceptOutcome)
      requires Valid()
      modifies this
      ensures Valid()
      ensures !chatWriteOk ==> outcome == ChatWriteFailed && requests == old(requests) && chats == old(chats)
      ensures chatWriteOk ==> chats == old(chats)[ChatId(request.fromId, request.toId) := ChatFor(request, now)]
      ensures chatWriteOk ==> requests == UpdateStatus(old(requests), request.id, Accepted)
      ensures chatWriteOk ==> (outcome == AcceptDone <==> request.id in old(requests))
      ensures chatWriteOk ==> outcome != ChatWriteFailed
    {
      if !chatWriteOk {
        return ChatWriteFailed;
      }
      var chatId := ChatId(request.fromId, request.toId);
      chats := chats[chatId := ChatFor(request, now)];
      if request.id in requests {
        requests := UpdateStatus(requests, request.id, Accepted);
        outcome := AcceptDone;
      } else {
        outcome := StatusUpdateFailed;
      }
    }

    /** `rejectRequest`: updates the status of the document `requestId`; no chat is written and
        the current status is not looked at. */
    method RejectRequest(requestId: string) returns (outcome: WriteOutcome)
      requires Valid()
      modifies this
      ensures Valid()
      ensures requests == UpdateStatus(old(requests), requestId, Rejected)
      ensures chats == old(chats)
      ensures outcome == Written <==> requestId in old(requests)
    {
      if requestId in requests {
        requests := UpdateStatus(requests, requestId, Rejected);
        outcome := Written;
      } else {
        outcome := Failed;
      }
    }
  }

  /** The incoming view of a snapshot of the table is exactly the table's pending requests
      addressed to the user. */
  lemma IncomingViewOfTable(table: map<string, ChatRequest>, docs: seq<ChatRequest>, userId: string)
    requires IsSnapshotOf(docs, table)
    ensures forall q :: q in IncomingRequests(userId, Some(docs)) <==>
      q in table.Values && q.toId == userId && q.status == Pending
  {
    forall q ensures q in docs <==> q in table.Values {
      if q in docs {
        var i :| 0 <= i < |docs| && docs[i] == q;
        assert table[docs[i].id] == q;
      }
      if q in table.Values {
        var k :| k in table && table[k] == q;
      }
    }
  }

  /** The outgoing view of a snapshot of the table is exactly the table's pending and accepted
      requests sent by the user; rejected requests never appear in it. */
  lemma OutgoingViewOfTable(table: map<string, ChatRequest>, docs: seq<ChatRequest>, userId: string)
    requires IsSnapshotOf(docs, table)
    ensures forall q :: q in OutgoingRequests(userId, Some(docs)) <==>
      q in table.Values && q.fromId == userId && (q.status == Pending || q.status == Accepted)
  {
    forall q ensures q in docs <==> q in table.Values {
      if q in docs {
        var i :| 0 <= i < |docs| && docs[i] == q;
        assert table[docs[i].id] == q;
      }
      if q in table.Values {
        var k :| k in table && table[k] == q;
      }
    }
  }

  /** A freshly sent request shows up in the recipient's incoming view and in the sender's
      outgoing view. */
  lemma SentRequestIsVisible(requests: map<string, ChatRequest>, docId: string, fromId: string, toId: string, now: int, docs: seq<ChatRequest>)
    requires IsSnapshotOf(docs, requests[docId := ChatRequest(docId, fromId, toId, Pending, now)])
    ensures ChatRequest(docId, fromId, toId, Pending, now) in IncomingRequests(toId, Some(docs))
    ensures ChatRequest(docId, fromId, toId, Pending, now) in OutgoingRequests(fromId, Some(docs))
  {
    var table := requests[docId := ChatRequest(docId, fromId, toId, Pending, now)];
    assert table[docId] in docs;
  }

  /** After an accept, the request leaves every incoming view of the new table, but stays in
      the sender's outgoing view. */
  lemma AcceptedLeavesIncoming(requests: map<string, ChatRequest>, id: string, docs: seq<ChatRequest>, userId: string)
    requires id in requests
    requires IsSnapshotOf(docs, UpdateStatus(requests, id, Accepted))
    ensures forall q :: q in IncomingRequests(userId, Some(docs)) ==> q.id != id
    ensures UpdateStatus(requests, id, Accepted)[id] in OutgoingRequests(requests[id].fromId, Some(docs))
  {
    var table := UpdateStatus(requests, id, Accepted);
    forall q | q in IncomingRequests(userId, Some(docs)) ensures q.id != id {
      var i :| 0 <= i < |docs| && docs[i] == q;
      assert table[q.id] == q;
    }
    assert table[id] in docs;
  }

  /** After a reject, the request is in nobody's incoming or outgoing view. */
  lemma RejectedLeavesBothViews(requests: map<string, ChatRequest>, id: string, docs: seq<ChatRequest>, userId: string)
    requires id in requests
    requires IsSnapshotOf(docs, UpdateStatus(requests, id, Rejected))
    ensures forall q :: q in IncomingRequests(userId, Some(docs)) ==> q.id != id
    ensures forall q :: q in OutgoingRequests(userId, Some(docs)) ==> q.id != id
  {
    var table := UpdateStatus(requests, id, Rejected);
    forall q | q in IncomingRequests(userId, Some(docs)) || q in OutgoingRequests(userId, Some(docs))
      ensures q.id != id
    {
      var i :| 0 <= i < |docs| && docs[i] == q;
      assert table[q.id] == q;
    }
  }
}
