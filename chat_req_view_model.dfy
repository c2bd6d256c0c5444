/** `ChatRequestViewModel`: the incoming and outgoing request lists the UI observes, each
    replaced wholesale by its listener, and the send / accept / reject calls handed on to the
    request repository. */
module ChatReqViewModel {
  import opened Models
  import opened ChatReqRepo

  /** A list the incoming listener can deliver: every request in it is pending. */
  predicate LiveIncoming(incoming: seq<ChatRequest>) {
    forall i :: 0 <= i < |incoming| ==> incoming[i].status == Pending
  }

  /** A list the outgoing listener can deliver: no request in it is rejected. */
  predicate LiveOutgoing(outgoing: seq<ChatRequest>) {
    forall i :: 0 <= i < |outgoing| ==> outgoing[i].status != Rejected
  }

  /** Whatever the event, the listeners only ever deliver live lists. */
  lemma ListenersDeliverLiveLists(userId: string, snapshot: Option<seq<ChatRequest>>)
    ensures LiveIncoming(IncomingRequests(userId, snapshot))
    ensures LiveOutgoing(OutgoingRequests(userId, snapshot))
  {
    var incoming := IncomingRequests(userId, snapshot);
    var outgoing := OutgoingRequests(userId, snapshot);
    forall i | 0 <= i < |incoming| ensures incoming[i].status == Pending {
      assert incoming[i] in incoming;
    }
    forall i | 0 <= i < |outgoing| ensures outgoing[i].status != Rejected {
      assert outgoing[i] in outgoing;
    }
  }

  class ChatRequestViewModel {
    /** `_incomingRequests`. */
    var incoming: seq<ChatRequest>
    /** `_outgoingRequests`. */
    var outgoing: seq<ChatRequest>
    const repository: ChatRequestRepository

    ghost predicate Valid()
      reads this
    {
      LiveIncoming(incoming) && LiveOutgoing(outgoing)
    }

    /** Both lists start empty. */
    constructor(repository: ChatRequestRepository)
      ensures Valid()
      ensures this.repository == repository
      ensures incoming == [] && outgoing == []
    {
      this.repository := repository;
      incoming := [];
      outgoing := [];
    }

    /** One event of the listener `listenIncomingRequests(userId)` registers: the callback's
        list replaces `incoming`; `outgoing` is left alone. A delivered snapshot lists the
        request collection as it is. */
    method OnIncomingRequests(userId: string, snapshot: Option<seq<ChatRequest>>)
      requires snapshot.Some? ==> IsSnapshotOf(snapshot.value, repository.requests)
      requires Valid()
      modifies this
      ensures Valid()
      ensures incoming == IncomingRequests(userId, snapshot)
      ensures outgoing == old(outgoing)
      ensures snapshot.Some? ==> forall q :: q in incoming <==>
        q in repository.requests.Values && q.toId == userId && q.status == Pending
    {
      ListenersDeliverLiveLists(userId, snapshot);
      if snapshot.Some? {
        IncomingViewOfTable(repository.requests, snapshot.value, userId);
      }
      incoming := IncomingRequests(userId, snapshot);
    }

    /** One event of the listener `listenOutgoingRequests(userId)` registers: the callback's
        list replaces `outgoing`; `incoming` is left alone. */
    method OnOutgoingRequests(userId: string, snapshot: Option<seq<ChatRequest>>)
      requires snapshot.Some? ==> IsSnapshotOf(snapshot.value, repository.requests)
      requires Valid()
      modifies this
      ensures Valid()
      ensures outgoing == OutgoingRequests(userId, snapshot)
      ensures incoming == old(incoming)
      ensures snapshot.Some? ==> forall q :: q in outgoing <==>
        q in repository.requests.Values && q.fromId == userId && (q.status == Pending || q.status == Accepted)
    {
      ListenersDeliverLiveLists(userId, snapshot);
      if snapshot.Some? {
        OutgoingViewOfTable(repository.requests, snapshot.value, userId);
      }
      outgoing := OutgoingRequests(userId, snapshot);
    }

    /** `sendRequest(fromId, toId)`, handed on unchanged. */
    method SendRequest(fromId: string, toId: string, docId: string, now: int)
      requires repository.Valid()
      modifies repository
      ensures repository.Valid()
      ensures repository.requests == old(repository.requests)[docId := ChatRequest(docId, fromId, toId, Pending, now)]
      ensures repository.chats == old(repository.chats)
    {
      repository.SendRequest(fromId, toId, docId, now);
    }

    /** `acceptRequest(request)`, handed on unchanged. */
    method AcceptRequest(request: ChatRequest, chatWriteOk: bool, now: int) returns (outcome: AcceptOutcome)
      requires repository.Valid()
      modifies repository
      ensures repository.Valid()
      ensures !chatWriteOk ==> outcome == ChatWriteFailed
      ensures !chatWriteOk ==> repository.requests == old(repository.requests) && repository.chats == old(repository.chats)
      ensures chatWriteOk ==> repository.chats == old(repository.chats)[ChatFor(request, now).chatId := ChatFor(request, now)]
      ensures chatWriteOk ==> repository.requests == UpdateStatus(old(repository.requests), request.id, Accepted)
    {
      outcome := repository.AcceptRequest(request, chatWriteOk, now);
    }

    /** `rejectRequest(requestId)`, handed on unchanged. */
    method RejectRequest(requestId: string) returns (outcome: WriteOutcome)
      requires repository.Valid()
      modifies repository
      ensures repository.Valid()
      ensures repository.requests == UpdateStatus(old(repository.requests), requestId, Rejected)
      ensures repository.chats == old(repository.chats)
      ensures outcome == Written <==> requestId in old(repository.requests)
    {
      outcome := repository.RejectRequest(requestId);
    }
  }
}
