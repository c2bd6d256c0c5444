/** `UsersViewModel`: the `_users` list of the users screen. Every user snapshot resets it
    with status NONE; the two request collectors rewrite the statuses from the incoming and
    outgoing lists of the request view model; send / accept / reject go to the request
    repository; profile image and sign-out go to the user repository. */
module UserViewModel {
  import opened Models
  import opened Lists
  import opened ChatReqRepo
  import opened ChatReqViewModel
  import UserRepo

  /** A listed user and the connection status shown for them. */
  datatype UserUiModel = UserUiModel(user: User, status: ConnectionStatus)

  /** The users of a list of entries, in order. */
  function UsersOf(entries: seq<UserUiModel>): seq<User> {
    seq(|entries|, i requires 0 <= i < |entries| => entries[i].user)
  }

  /** What `observeUsers` stores for a delivered user list. */
  function FreshEntries(userList: seq<User>): (r: seq<UserUiModel>)
    ensures UsersOf(r) == userList
    ensures forall i :: 0 <= i < |r| ==> r[i].status == NONE
  {
    seq(|userList|, i requires 0 <= i < |userList| => UserUiModel(userList[i], NONE))
  }

  /** Some request in the list comes from `uid` with the given status. */
  predicate HasFromWith(requests: seq<ChatRequest>, uid: string, status: RequestStatus) {
    exists i :: 0 <= i < |requests| && requests[i].fromId == uid && requests[i].status == status
  }

  /** Some request in the list goes to `uid` with the given status. */
  predicate HasToWith(requests: seq<ChatRequest>, uid: string, status: RequestStatus) {
    exists i :: 0 <= i < |requests| && requests[i].toId == uid && requests[i].status == status
  }

  /** The incoming collector's rule for one user: any pending request from them gives RECEIVED,
      else any accepted one ACCEPTED, else any rejected one REJECTED; otherwise the status
      stays. */
  function IncomingStatus(incoming: seq<ChatRequest>, uid: string, current: ConnectionStatus): (r: ConnectionStatus)
    ensures (forall j :: 0 <= j < |incoming| ==> incoming[j].fromId != uid) ==> r == current
    ensures r != current ==> r == RECEIVED || r == ACCEPTED || r == REJECTED
  {
    if HasFromWith(incoming, uid, Pending) then RECEIVED
    else if HasFromWith(incoming, uid, Accepted) then ACCEPTED
    else if HasFromWith(incoming, uid, Rejected) then REJECTED
    else current
  }

  /** The outgoing collector's rule for one user, keyed on `toId`, with SENT for pending. */
  function OutgoingStatus(outgoing: seq<ChatRequest>, uid: string, current: ConnectionStatus): (r: ConnectionStatus)
    ensures (forall j :: 0 <= j < |outgoing| ==> outgoing[j].toId != uid) ==> r == current
    ensures r != current ==> r == SENT || r == ACCEPTED || r == REJECTED
  {
    if HasToWith(outgoing, uid, Pending) then SENT
    else if HasToWith(outgoing, uid, Accepted) then ACCEPTED
    else if HasToWith(outgoing, uid, Rejected) then REJECTED
    else current
  }

  /** The incoming collector's new `_users` value. */
  function RefreshIncoming(entries: seq<UserUiModel>, incoming: seq<ChatRequest>): (r: seq<UserUiModel>)
    ensures UsersOf(r) == UsersOf(entries)
    ensures forall i :: 0 <= i < |r| && (forall j :: 0 <= j < |incoming| ==> incoming[j].fromId != entries[i].user.uid) ==>
      r[i].status == entries[i].status
    ensures forall i :: 0 <= i < |r| && HasFromWith(incoming, entries[i].user.uid, Pending) ==> r[i].status == RECEIVED
    ensures forall i :: (0 <= i < |r| && !HasFromWith(incoming, entries[i].user.uid, Pending) &&
      HasFromWith(incoming, entries[i].user.uid, Accepted)) ==> r[i].status == ACCEPTED
    ensures forall i :: (0 <= i < |r| && !HasFromWith(incoming, entries[i].user.uid, Pending) &&
      !HasFromWith(incoming, entries[i].user.uid, Accepted) && HasFromWith(incoming, entries[i].user.uid, Rejected)) ==>
      r[i].status == REJECTED
  {
    seq(|entries|, i requires 0 <= i < |entries| =>
      entries[i].(status := IncomingStatus(incoming, entries[i].user.uid, entries[i].status)))
  }

  /** The outgoing collector's new `_users` value. */
  function RefreshOutgoing(entries: seq<UserUiModel>, outgoing: seq<ChatRequest>): (r: seq<UserUiModel>)
    ensures UsersOf(r) == UsersOf(entries)
    ensures forall i :: 0 <= i < |r| && (forall j :: 0 <= j < |outgoing| ==> outgoing[j].toId != entries[i].user.uid) ==>
      r[i].status == entries[i].status
    ensures forall i :: 0 <= i < |r| && HasToWith(outgoing, entries[i].user.uid, Pending) ==> r[i].status == SENT
    ensures forall i :: (0 <= i < |r| && !HasToWith(outgoing, entries[i].user.uid, Pending) &&
      HasToWith(outgoing, entries[i].user.uid, Accepted)) ==> r[i].status == ACCEPTED
    ensures forall i :: (0 <= i < |r| && !HasToWith(outgoing, entries[i].user.uid, Pending) &&
      !HasToWith(outgoing, entries[i].user.uid, Accepted) && HasToWith(outgoing, entries[i].user.uid, Rejected)) ==>
      r[i].status == REJECTED
  {
    seq(|entries|, i requires 0 <= i < |entries| =>
      entries[i].(status := OutgoingStatus(outgoing, entries[i].user.uid, entries[i].status)))
  }

  /** `incoming.find { it.fromId == uid }`. */
  function FirstFrom(requests: seq<ChatRequest>, uid: string): (r: Option<ChatRequest>)
    ensures r.None? <==> forall i :: 0 <= i < |requests| ==> requests[i].fromId != uid
    ensures r.Some? ==> r.value.fromId == uid
    ensures r.Some? ==> exists i :: 0 <= i < |requests| && requests[i] == r.value && forall j :: 0 <= j < i ==> requests[j].fromId != uid
  {
    Find(requests, (q: ChatRequest) => q.fromId == uid)
  }

  /** `outgoing.find { it.toId == uid }`. */
  function FirstTo(requests: seq<ChatRequest>, uid: string): (r: Option<ChatRequest>)
    ensures r.None? <==> forall i :: 0 <= i < |requests| ==> requests[i].toId != uid
    ensures r.Some? ==> r.value.toId == uid
    ensures r.Some? ==> exists i :: 0 <= i < |requests| && requests[i] == r.value && forall j :: 0 <= j < i ==> requests[j].toId != uid
  {
    Find(requests, (q: ChatRequest) => q.toId == uid)
  }

  /** The local part of `updateProfileImage`: the entries whose uid is `uid` get the new
      image; every other entry, and every status, stays. */
  function WithLocalProfileImage(entries: seq<UserUiModel>, uid: string, url: string): (r: seq<UserUiModel>)
    ensures |r| == |entries|
    ensures forall i :: 0 <= i < |r| ==> r[i].status == entries[i].status && r[i].user.uid == entries[i].user.uid
    ensures forall i :: 0 <= i < |r| && entries[i].user.uid != uid ==> r[i] == entries[i]
    ensures forall i :: 0 <= i < |r| && entries[i].user.uid == uid ==>
      r[i].user == entries[i].user.(profileImageUrl := Some(url))
  {
    seq(|entries|, i requires 0 <= i < |entries| =>
      if entries[i].user.uid == uid then entries[i].(user := entries[i].user.(profileImageUrl := Some(url)))
      else entries[i])
  }

  /** With a list the incoming listener delivers, the collector's ACCEPTED and REJECTED arms
      never fire: a user becomes RECEIVED exactly when some request in the list is theirs, and
      keeps their status otherwise. */
  lemma LiveIncomingRefresh(entries: seq<UserUiModel>, incoming: seq<ChatRequest>, i: int)
    requires LiveIncoming(incoming)
    requires 0 <= i < |entries|
    ensures (exists j :: 0 <= j < |incoming| && incoming[j].fromId == entries[i].user.uid) ==>
      RefreshIncoming(entries, incoming)[i].status == RECEIVED
    ensures (forall j :: 0 <= j < |incoming| ==> incoming[j].fromId != entries[i].user.uid) ==>
      RefreshIncoming(entries, incoming)[i].status == entries[i].status
  {
    var uid := entries[i].user.uid;
    if j :| 0 <= j < |incoming| && incoming[j].fromId == uid {
      assert incoming[j].status == Pending;
      assert HasFromWith(incoming, uid, Pending);
    }
  }

  /** With a list the outgoing listener delivers, the collector's REJECTED arm never fires: a
      user some pending request goes to becomes SENT, a user whose requests are all accepted
      becomes ACCEPTED, and a user no request goes to keeps their status. */
  lemma LiveOutgoingRefresh(entries: seq<UserUiModel>, outgoing: seq<ChatRequest>, i: int)
    requires LiveOutgoing(outgoing)
    requires 0 <= i < |entries|
    ensures (exists j :: 0 <= j < |outgoing| && outgoing[j].toId == entries[i].user.uid && outgoing[j].status == Pending) ==>
      RefreshOutgoing(entries, outgoing)[i].status == SENT
    ensures ((exists j :: 0 <= j < |outgoing| && outgoing[j].toId == entries[i].user.uid) &&
      (forall j :: 0 <= j < |outgoing| && outgoing[j].toId == entries[i].user.uid ==> outgoing[j].status != Pending)) ==>
      RefreshOutgoing(entries, outgoing)[i].status == ACCEPTED
    ensures (forall j :: 0 <= j < |outgoing| ==> outgoing[j].toId != entries[i].user.uid) ==>
      RefreshOutgoing(entries, outgoing)[i].status == entries[i].status
  {
    var uid := entries[i].user.uid;
    if j :| 0 <= j < |outgoing| && outgoing[j].toId == uid {
      if !HasToWith(outgoing, uid, Pending) {
        assert outgoing[j].status != Pending && outgoing[j].status != Rejected;
        assert HasToWith(outgoing, uid, Accepted);
      }
    }
  }

  /** With a list the outgoing listener delivers, the collector never makes a user REJECTED. */
  lemma LiveOutgoingRefreshNeverRejects(entries: seq<UserUiModel>, outgoing: seq<ChatRequest>, i: int)
    requires LiveOutgoing(outgoing)
    requires 0 <= i < |entries|
    ensures RefreshOutgoing(entries, outgoing)[i].status == REJECTED ==> entries[i].status == REJECTED
  {
    var uid := entries[i].user.uid;
    forall j | 0 <= j < |outgoing| ensures !(outgoing[j].toId == uid && outgoing[j].status == Rejected) {
      assert outgoing[j].status != Rejected;
    }
  }

  /** Applying the incoming rule twice with the same list is applying it once: a matched user's
      status depends only on the list. */
  lemma RefreshIncomingIdempotent(entries: seq<UserUiModel>, incoming: seq<ChatRequest>)
    ensures RefreshIncoming(RefreshIncoming(entries, incoming), incoming) == RefreshIncoming(entries, incoming)
  {
    var once := RefreshIncoming(entries, incoming);
    var twice := RefreshIncoming(once, incoming);
    assert |twice| == |once|;
    forall i | 0 <= i < |once| ensures twice[i] == once[i] {
      assert once[i].user == entries[i].user;
    }
  }

  /** The two collectors write the same `_users` list, so the status a user ends with depends on
      which list changed last: with a pending request each way, the incoming collector last gives
      RECEIVED and the outgoing collector last gives SENT. */
  lemma RefreshOrderMatters(me: string, other: User)
    requires other.uid != me
    ensures RefreshIncoming(RefreshOutgoing([UserUiModel(other, NONE)], [ChatRequest("r2", me, other.uid, Pending, 1)]),
                            [ChatRequest("r1", other.uid, me, Pending, 0)])[0].status == RECEIVED
    ensures RefreshOutgoing(RefreshIncoming([UserUiModel(other, NONE)], [ChatRequest("r1", other.uid, me, Pending, 0)]),
                            [ChatRequest("r2", me, other.uid, Pending, 1)])[0].status == SENT
  {
    var incoming := [ChatRequest("r1", other.uid, me, Pending, 0)];
    var outgoing := [ChatRequest("r2", me, other.uid, Pending, 1)];
    assert HasFromWith(incoming, other.uid, Pending) by { assert incoming[0].fromId == other.uid; }
    assert HasToWith(outgoing, other.uid, Pending) by { assert outgoing[0].toId == other.uid; }
  }

  /** The local image update agrees with the store's: if every entry shows the stored record of
      its user, it still does after both updates. */
  lemma LocalImageMatchesStore(entries: seq<UserUiModel>, users: map<string, User>, account: AuthUser, url: string)
    requires forall i :: 0 <= i < |entries| ==> entries[i].user.uid in users && users[entries[i].user.uid] == entries[i].user
    ensures var after := UserRepo.WithProfileImage(users, Some(account), url);
      var local := WithLocalProfileImage(entries, account.uid, url);
      forall i :: 0 <= i < |local| ==> local[i].user.uid in after && after[local[i].user.uid] == local[i].user
  {
    var after := UserRepo.WithProfileImage(users, Some(account), url);
    var local := WithLocalProfileImage(entries, account.uid, url);
    forall i | 0 <= i < |local| ensures local[i].user.uid in after && after[local[i].user.uid] == local[i].user {
      if entries[i].user.uid == account.uid {
        assert local[i].user == entries[i].user.(profileImageUrl := Some(url));
      }
    }
  }

  /** The listed users never include the signed-in one, so on a list built from a user snapshot
      the local image update changes nothing. */
  lemma LocalImageMissesListedUsers(snapshot: seq<User>, uid: string, url: string)
    ensures var entries := FreshEntries(UserRepo.OtherUsers(snapshot, Some(uid)));
      WithLocalProfileImage(entries, uid, url) == entries
  {
    var listed := UserRepo.OtherUsers(snapshot, Some(uid));
    var entries := FreshEntries(listed);
    forall i | 0 <= i < |entries| ensures entries[i].user.uid != uid {
      assert entries[i].user == UsersOf(entries)[i] == listed[i];
    }
  }

  class UsersViewModel {
    /** `_users`. */
    var users: seq<UserUiModel>
    /** `auth.currentUser?.uid ?: ""`, read once when the view model is made. */
    const currentUserId: string
    const repository: UserRepo.UserRepository
    const requestViewModel: ChatRequestViewModel

    ghost predicate Valid()
      reads this, repository, requestViewModel, requestViewModel.repository
    {
      repository.Valid() && requestViewModel.Valid() && requestViewModel.repository.Valid()
    }

    /** Construction: the list starts empty, the signed-in user's record is written if it is
        missing (`saveUserIfNew()` with no image), and the listeners are registered; their
        events are the methods below. */
    constructor(repository: UserRepo.UserRepository, requestViewModel: ChatRequestViewModel)
      requires repository.Valid() && requestViewModel.Valid() && requestViewModel.repository.Valid()
      modifies repository
      ensures Valid()
      ensures this.repository == repository && this.requestViewModel == requestViewModel
      ensures users == []
      ensures currentUserId == (if old(repository.currentUser).Some? then old(repository.currentUser).value.uid else "")
      ensures repository.users == UserRepo.SavedIfNew(old(repository.users), old(repository.currentUser), None)
      ensures repository.currentUser == old(repository.currentUser)
    {
      this.repository := repository;
      this.requestViewModel := requestViewModel;
      currentUserId := if repository.currentUser.Some? then repository.currentUser.value.uid else "";
      users := [];
      new;
      repository.SaveUserIfNew(None);
    }

    /** One event of the user listener: a delivered list replaces `_users`, every status NONE;
        a listener error delivers nothing. */
    method ObserveUsers(snapshot: Option<seq<User>>)
      modifies this
      ensures snapshot.None? ==> users == old(users)
      ensures snapshot.Some? ==>
        users == FreshEntries(UserRepo.OtherUsers(snapshot.value, UserRepo.CurrentUid(repository.currentUser)))
    {
      var delivered := repository.ListenForUsers(snapshot);
      if delivered.Some? {
        users := FreshEntries(delivered.value);
      }
    }

    /** One event of the incoming listener, followed by the incoming collector. Without a
        signed-in user nothing is registered. The collector runs only when the list it observes
        changes value. */
    method OnIncomingEvent(snapshot: Option<seq<ChatRequest>>)
      requires Valid()
      requires snapshot.Some? ==> IsSnapshotOf(snapshot.value, requestViewModel.repository.requests)
      modifies this, requestViewModel
      ensures Valid()
      ensures requestViewModel.outgoing == old(requestViewModel.outgoing)
      ensures currentUserId == "" ==> users == old(users) && requestViewModel.incoming == old(requestViewModel.incoming)
      ensures currentUserId != "" ==> requestViewModel.incoming == IncomingRequests(currentUserId, snapshot)
      ensures currentUserId != "" && requestViewModel.incoming != old(requestViewModel.incoming) ==>
        users == RefreshIncoming(old(users), requestViewModel.incoming)
      ensures requestViewModel.incoming == old(requestViewModel.incoming) ==> users == old(users)
    {
      if currentUserId == "" {
        return;
      }
      var before := requestViewModel.incoming;
      requestViewModel.OnIncomingRequests(currentUserId, snapshot);
      if requestViewModel.incoming != before {
        users := RefreshIncoming(users, requestViewModel.incoming);
      }
    }

    /** One event of the outgoing listener, followed by the outgoing collector. */
    method OnOutgoingEvent(snapshot: Option<seq<ChatRequest>>)
      requires Valid()
      requires snapshot.Some? ==> IsSnapshotOf(snapshot.value, requestViewModel.repository.requests)
      modifies this, requestViewModel
      ensures Valid()
      ensures requestViewModel.incoming == old(requestViewModel.incoming)
      ensures currentUserId == "" ==> users == old(users) && requestViewModel.outgoing == old(requestViewModel.outgoing)
      ensures currentUserId != "" ==> requestViewModel.outgoing == OutgoingRequests(currentUserId, snapshot)
      ensures currentUserId != "" && requestViewModel.outgoing != old(requestViewModel.outgoing) ==>
        users == RefreshOutgoing(old(users), requestViewModel.outgoing)
      ensures requestViewModel.outgoing == old(requestViewModel.outgoing) ==> users == old(users)
    {
      if currentUserId == "" {
        return;
      }
      var before := requestViewModel.outgoing;
      requestViewModel.OnOutgoingRequests(currentUserId, snapshot);
      if requestViewModel.outgoing != before {
        users := RefreshOutgoing(users, requestViewModel.outgoing);
      }
    }

    /** `sendRequest(toUserId)`: sends from the signed-in user, or does nothing without one. */
    method SendRequest(toUserId: string, docId: string, now: int)
      requires Valid()
      modifies requestViewModel.repository
      ensures Valid()
      ensures currentUserId == "" ==> requestViewModel.repository.requests == old(requestViewModel.repository.requests)
      ensures currentUserId != "" ==>
        requestViewModel.repository.requests == old(requestViewModel.repository.requests)[docId := ChatRequest(docId, currentUserId, toUserId, Pending, now)]
      ensures requestViewModel.repository.chats == old(requestViewModel.repository.chats)
    {
      if currentUserId != "" {
        requestViewModel.SendRequest(currentUserId, toUserId, docId, now);
      }
    }

    /** `acceptRequest(userId)`: accepts the first incoming request from `userId`, or does
        nothing (`None`) when there is none. */
    method AcceptRequest(userId: string, chatWriteOk: bool, now: int) returns (outcome: Option<AcceptOutcome>)
      requires Valid()
      modifies requestViewModel.repository
      ensures Valid()
      ensures outcome.None? <==> FirstFrom(requestViewModel.incoming, userId).None?
      ensures outcome.None? || !chatWriteOk ==>
        requestViewModel.repository.requests == old(requestViewModel.repository.requests) &&
        requestViewModel.repository.chats == old(requestViewModel.repository.chats)
      ensures outcome.Some? && chatWriteOk ==>
        var q := FirstFrom(requestViewModel.incoming, userId).value;
        && requestViewModel.repository.requests == UpdateStatus(old(requestViewModel.repository.requests), q.id, Accepted)
        && requestViewModel.repository.chats == old(requestViewModel.repository.chats)[ChatFor(q, now).chatId := ChatFor(q, now)]
    {
      var request := FirstFrom(requestViewModel.incoming, userId);
      if request.None? {
        return None;
      }
      var o := requestViewModel.AcceptRequest(request.value, chatWriteOk, now);
      outcome := Some(o);
    }

    /** `rejectRequest(requestId)`, handed on unchanged. */
    method RejectRequest(requestId: string) returns (outcome: WriteOutcome)
      requires Valid()
      modifies requestViewModel.repository
      ensures Valid()
      ensures requestViewModel.repository.requests == UpdateStatus(old(requestViewModel.repository.requests), requestId, Rejected)
      ensures requestViewModel.repository.chats == old(requestViewModel.repository.chats)
      ensures outcome == Written <==> requestId in old(requestViewModel.repository.requests)
    {
      outcome := requestViewModel.RejectRequest(requestId);
    }

    /** Reject as the users screen means it: find the first incoming request from `userId`,
        as `acceptRequest` does, and reject that request's document. */
    method RejectRequestFrom(userId: string) returns (outcome: Option<WriteOutcome>)
      requires Valid()
      modifies requestViewModel.repository
      ensures Valid()
      ensures outcome.None? <==> FirstFrom(requestViewModel.incoming, userId).None?
      ensures outcome.None? ==> requestViewModel.repository.requests == old(requestViewModel.repository.requests)
      ensures outcome.Some? ==>
        requestViewModel.repository.requests == UpdateStatus(old(requestViewModel.repository.requests), FirstFrom(requestViewModel.incoming, userId).value.id, Rejected)
      ensures requestViewModel.repository.chats == old(requestViewModel.repository.chats)
    {
      var request := FirstFrom(requestViewModel.incoming, userId);
      if request.None? {
        return None;
      }
      var o := requestViewModel.RejectRequest(request.value.id);
      outcome := Some(o);
    }

    /** `signOut`: the account is signed out and the list is emptied. */
    method SignOut()
      requires Valid()
      modifies this, repository
      ensures Valid()
      ensures users == [] && repository.currentUser == None
      ensures repository.users == old(repository.users)
    {
      repository.SignOut();
      users := [];
    }

    /** `updateProfileImage(url)`: the store's record of the signed-in account, then the local
        entry of `currentUserId`. */
    method UpdateProfileImage(url: string)
      requires Valid()
      modifies this, repository
      ensures Valid()
      ensures repository.users == UserRepo.WithProfileImage(old(repository.users), old(repository.currentUser), url)
      ensures repository.currentUser == old(repository.currentUser)
      ensures users == WithLocalProfileImage(old(users), currentUserId, url)
    {
      repository.UpdateProfileImage(url);
      users := WithLocalProfileImage(users, currentUserId, url);
    }
  }
}
