/** The logic of the users screen: the connection status it derives for each listed user
    from the incoming and outgoing request lists, the status label and the buttons of a user's
    card, what each button calls, the avatar, and the title. */
module UsersScreen {
  import opened Models
  import opened KotlinText
  import opened ChatReqRepo
  import opened ChatReqViewModel
  import opened UserViewModel

  /** The status of one user: only the first incoming request from them and the first
      outgoing request to them are looked at; a pending incoming one wins over a pending
      outgoing one, then an accepted one either way, then a rejected one either way. */
  function ScreenStatus(incoming: seq<ChatRequest>, outgoing: seq<ChatRequest>, uid: string): ConnectionStatus {
    var inc := FirstFrom(incoming, uid);
    var out := FirstTo(outgoing, uid);
    if inc.Some? && inc.value.status == Pending then RECEIVED
    else if out.Some? && out.value.status == Pending then SENT
    else if (inc.Some? && inc.value.status == Accepted) || (out.Some? && out.value.status == Accepted) then ACCEPTED
    else if (inc.Some? && inc.value.status == Rejected) || (out.Some? && out.value.status == Rejected) then REJECTED
    else NONE
  }

  /** The request a lookup found has the given status. */
  predicate FirstIs(found: Option<ChatRequest>, status: RequestStatus) {
    found.Some? && found.value.status == status
  }

  /** `usersWithStatus`: the view model's entries with the screen's status in place of theirs.
      Each arm of the screen's `when` is stated over the first incoming request from the user
      and the first outgoing request to them, with its precedence. */
  function UsersWithStatus(entries: seq<UserUiModel>, incoming: seq<ChatRequest>, outgoing: seq<ChatRequest>): (r: seq<UserUiModel>)
    ensures UsersOf(r) == UsersOf(entries)
    ensures forall i :: 0 <= i < |r| ==>
      (r[i].status == NONE <==> FirstFrom(incoming, entries[i].user.uid).None? && FirstTo(outgoing, entries[i].user.uid).None?)
    ensures forall i :: 0 <= i < |r| ==>
      (r[i].status == RECEIVED <==> FirstFrom(incoming, entries[i].user.uid).Some? && FirstFrom(incoming, entries[i].user.uid).value.status == Pending)
    ensures forall i :: 0 <= i < |r| ==>
      (r[i].status == SENT <==>
        !FirstIs(FirstFrom(incoming, entries[i].user.uid), Pending) && FirstIs(FirstTo(outgoing, entries[i].user.uid), Pending))
    ensures forall i :: 0 <= i < |r| ==>
      (r[i].status == ACCEPTED <==>
        && !FirstIs(FirstFrom(incoming, entries[i].user.uid), Pending) && !FirstIs(FirstTo(outgoing, entries[i].user.uid), Pending)
        && (FirstIs(FirstFrom(incoming, entries[i].user.uid), Accepted) || FirstIs(FirstTo(outgoing, entries[i].user.uid), Accepted)))
    ensures forall i :: 0 <= i < |r| ==>
      (r[i].status == REJECTED <==>
        && !FirstIs(FirstFrom(incoming, entries[i].user.uid), Pending) && !FirstIs(FirstTo(outgoing, entries[i].user.uid), Pending)
        && !FirstIs(FirstFrom(incoming, entries[i].user.uid), Accepted) && !FirstIs(FirstTo(outgoing, entries[i].user.uid), Accepted)
        && (FirstIs(FirstFrom(incoming, entries[i].user.uid), Rejected) || FirstIs(FirstTo(outgoing, entries[i].user.uid), Rejected)))
  {
    seq(|entries|, i requires 0 <= i < |entries| =>
      entries[i].(status := ScreenStatus(incoming, outgoing, entries[i].user.uid)))
  }

  /** The screen throws away whatever status the view model computed: two lists of entries for
      the same users show the same statuses. */
  lemma ScreenStatusIgnoresStoredStatus(e1: seq<UserUiModel>, e2: seq<UserUiModel>, incoming: seq<ChatRequest>, outgoing: seq<ChatRequest>)
    requires UsersOf(e1) == UsersOf(e2)
    ensures UsersWithStatus(e1, incoming, outgoing) == UsersWithStatus(e2, incoming, outgoing)
  {
    var r1 := UsersWithStatus(e1, incoming, outgoing);
    var r2 := UsersWithStatus(e2, incoming, outgoing);
    assert |r1| == |UsersOf(e1)| == |UsersOf(e2)| == |r2|;
    forall i | 0 <= i < |r1| ensures r1[i] == r2[i] {
      assert e1[i].user == UsersOf(e1)[i] == UsersOf(e2)[i] == e2[i].user;
    }
  }

  /** With the lists the listeners deliver, the screen never derives REJECTED: rejected
      requests are in neither list. */
  lemma LiveScreenNeverRejected(incoming: seq<ChatRequest>, outgoing: seq<ChatRequest>, uid: string)
    requires LiveIncoming(incoming) && LiveOutgoing(outgoing)
    ensures ScreenStatus(incoming, outgoing, uid) != REJECTED
  {
    var inc := FirstFrom(incoming, uid);
    var out := FirstTo(outgoing, uid);
    if inc.Some? {
      var i :| 0 <= i < |incoming| && incoming[i] == inc.value && forall j :: 0 <= j < i ==> incoming[j].fromId != uid;
      assert inc.value.status == Pending;
    }
    if out.Some? {
      var i :| 0 <= i < |outgoing| && outgoing[i] == out.value && forall j :: 0 <= j < i ==> outgoing[j].toId != uid;
      assert out.value.status != Rejected;
    }
  }

  /** The only requests between `a` and `b` in the table, in either direction, are `q`. */
  ghost predicate OnlyRequestBetween(table: map<string, ChatRequest>, q: ChatRequest) {
    forall p :: p in table.Values && p != q ==>
      !(p.fromId == q.fromId && p.toId == q.toId) && !(p.fromId == q.toId && p.toId == q.fromId)
  }

  /** A pending request shows as "Sent you a request" on the recipient's card for the sender,
      whatever else is in the table; when it is the only request between the two, it shows as
      "Request sent" on the sender's card for the recipient. */
  lemma PendingRequestOnBothScreens(table: map<string, ChatRequest>, docs: seq<ChatRequest>, q: ChatRequest, outgoing: seq<ChatRequest>)
    requires IsSnapshotOf(docs, table)
    requires q in table.Values && q.status == Pending
    ensures ScreenStatus(IncomingRequests(q.toId, Some(docs)), outgoing, q.fromId) == RECEIVED
    ensures q.fromId != q.toId && OnlyRequestBetween(table, q) ==>
      ScreenStatus(IncomingRequests(q.fromId, Some(docs)), OutgoingRequests(q.fromId, Some(docs)), q.toId) == SENT
  {
    var k :| k in table && table[k] == q;
    assert q in docs;
    var received := IncomingRequests(q.toId, Some(docs));
    assert q in received;
    assert FirstFrom(received, q.fromId).Some?;
    if q.fromId != q.toId && OnlyRequestBetween(table, q) {
      SenderView(table, docs, q);
    }
  }

  /** An accepted request, when it is the only one between the two users, shows as
      "Connected" with a Chat button on the sender's screen, but as nothing at all, with a Send
      button, on the recipient's: the incoming query keeps only pending requests. */
  lemma AcceptedRequestOnBothScreens(table: map<string, ChatRequest>, docs: seq<ChatRequest>, q: ChatRequest)
    requires IsSnapshotOf(docs, table)
    requires q in table.Values && q.status == Accepted
    requires q.fromId != q.toId && OnlyRequestBetween(table, q)
    ensures ScreenStatus(IncomingRequests(q.fromId, Some(docs)), OutgoingRequests(q.fromId, Some(docs)), q.toId) == ACCEPTED
    ensures ScreenStatus(IncomingRequests(q.toId, Some(docs)), OutgoingRequests(q.toId, Some(docs)), q.fromId) == NONE
  {
    SenderView(table, docs, q);
    RecipientView(table, docs, q);
  }

  /** A document of a snapshot is the table's document under its id. */
  lemma SnapshotDocument(docs: seq<ChatRequest>, table: map<string, ChatRequest>, p: ChatRequest)
    requires IsSnapshotOf(docs, table) && p in docs
    ensures p.id in table && table[p.id] == p
  {
    var j :| 0 <= j < |docs| && docs[j] == p;
  }

  /** On the recipient's screen, when an accepted `q` is the only request between the two
      users, neither list holds a request involving the sender. */
  lemma RecipientView(table: map<string, ChatRequest>, docs: seq<ChatRequest>, q: ChatRequest)
    requires IsSnapshotOf(docs, table)
    requires q in table.Values && q.status == Accepted
    requires q.fromId != q.toId && OnlyRequestBetween(table, q)
    ensures FirstFrom(IncomingRequests(q.toId, Some(docs)), q.fromId).None?
    ensures FirstTo(OutgoingRequests(q.toId, Some(docs)), q.fromId).None?
  {
    var incoming := IncomingRequests(q.toId, Some(docs));
    var outgoing := OutgoingRequests(q.toId, Some(docs));
    forall i | 0 <= i < |incoming| ensures incoming[i].fromId != q.fromId {
      assert incoming[i] in incoming;
      SnapshotDocument(docs, table, incoming[i]);
    }
    forall i | 0 <= i < |outgoing| ensures outgoing[i].toId != q.fromId {
      assert outgoing[i] in outgoing;
      SnapshotDocument(docs, table, outgoing[i]);
    }
  }

  /** On the sender's screen, when `q` is the only request between the two users, nothing comes
      in from the recipient and the first request going out to them is `q`. */
  lemma SenderView(table: map<string, ChatRequest>, docs: seq<ChatRequest>, q: ChatRequest)
    requires IsSnapshotOf(docs, table)
    requires q in table.Values && q.status != Rejected
    requires q.fromId != q.toId && OnlyRequestBetween(table, q)
    ensures FirstFrom(IncomingRequests(q.fromId, Some(docs)), q.toId).None?
    ensures FirstTo(OutgoingRequests(q.fromId, Some(docs)), q.toId) == Some(q)
  {
    var incoming := IncomingRequests(q.fromId, Some(docs));
    var outgoing := OutgoingRequests(q.fromId, Some(docs));
    forall i | 0 <= i < |incoming| ensures incoming[i].fromId != q.toId {
      assert incoming[i] in incoming;
      SnapshotDocument(docs, table, incoming[i]);
    }
    assert q in docs;
    assert q in outgoing;
    var out := FirstTo(outgoing, q.toId);
    var i :| 0 <= i < |outgoing| && outgoing[i] == out.value;
    assert outgoing[i] in outgoing;
    SnapshotDocument(docs, table, outgoing[i]);
  }

  /** The line under a user's name (`statusText`). */
  function StatusText(status: ConnectionStatus): (text: string)
    ensures text == "" <==> status == NONE
  {
    match status
    case NONE => ""
    case SENT => "Request sent"
    case RECEIVED => "Sent you a request"
    case ACCEPTED => "Connected"
    case REJECTED => "Request rejected"
  }

  /** Different statuses read differently. */
  lemma StatusTextDistinct(s1: ConnectionStatus, s2: ConnectionStatus)
    requires s1 != s2
    ensures StatusText(s1) != StatusText(s2)
  {
    assert StatusText(s1)[..] == StatusText(s1);
    if s1 != NONE && s2 != NONE {
      assert StatusText(s1)[0] != StatusText(s2)[0] || StatusText(s1)[8] != StatusText(s2)[8] || |StatusText(s1)| != |StatusText(s2)|;
    }
  }

  /** What a card's enabled button does. */
  datatype CardAction = SendAction | AcceptAction | RejectAction | ChatAction

  /** A button of a user's card: its caption, whether it can be pressed, and its callback. */
  datatype CardButton = CardButton(caption: string, enabled: bool, onClick: Option<CardAction>)

  /** The buttons a card shows for a status. */
  function Buttons(status: ConnectionStatus): (r: seq<CardButton>)
    ensures forall b :: b in r ==> (b.enabled <==> b.onClick.Some?)
    ensures r == [] <==> status == REJECTED
    ensures (exists b :: b in r && b.onClick == Some(SendAction)) <==> status == NONE
    ensures (exists b :: b in r && b.onClick == Some(AcceptAction)) <==> status == RECEIVED
    ensures (exists b :: b in r && b.onClick == Some(RejectAction)) <==> status == RECEIVED
    ensures (exists b :: b in r && b.onClick == Some(ChatAction)) <==> status == ACCEPTED
    ensures status == SENT ==> r == [CardButton("Pending", false, None)]
  {
    match status
    case NONE => [CardButton("Send", true, Some(SendAction))]
    case SENT => [CardButton("Pending", false, None)]
    case RECEIVED => [CardButton("Accept", true, Some(AcceptAction)), CardButton("Reject", true, Some(RejectAction))]
    case ACCEPTED => [CardButton("Chat", true, Some(ChatAction))]
    case REJECTED => []
  }

  /** A view-model call a card button makes. */
  datatype Call =
    | OpenChat(uid: string, name: string)
    | SendRequestTo(toUserId: string)
    | AcceptFrom(userId: string)
    | RejectById(requestId: string)
    | RejectFrom(userId: string)

  /** The card callbacks as the screen wires them: Reject hands the user's uid to
      `rejectRequest`, which takes a request document id. */
  function CallAsWritten(action: CardAction, user: User): (c: Call)
    ensures action == RejectAction ==> c == RejectById(user.uid)
    ensures action != RejectAction ==> c == CallFor(action, user)
  {
    match action
    case SendAction => SendRequestTo(user.uid)
    case AcceptAction => AcceptFrom(user.uid)
    case RejectAction => RejectById(user.uid)
    case ChatAction => OpenChat(user.uid, user.name)
  }

  /** The card callbacks with Reject resolving the request the way Accept does
      (`UsersViewModel.RejectRequestFrom`). */
  function CallFor(action: CardAction, user: User): (c: Call)
    ensures action == SendAction ==> c == SendRequestTo(user.uid)
    ensures action == AcceptAction ==> c == AcceptFrom(user.uid)
    ensures action == RejectAction ==> c == RejectFrom(user.uid)
    ensures action == ChatAction ==> c == OpenChat(user.uid, user.name)
  {
    match action
    case SendAction => SendRequestTo(user.uid)
    case AcceptAction => AcceptFrom(user.uid)
    case RejectAction => RejectFrom(user.uid)
    case ChatAction => OpenChat(user.uid, user.name)
  }

  /** As written, pressing Reject on the card of a user who sent a pending request updates the
      document named by their uid; request documents carry store-generated ids, so when no
      document has that id nothing changes and the card keeps showing the request. */
  lemma RejectAsWrittenKeepsRequest(table: map<string, ChatRequest>, q: ChatRequest, user: User, docs: seq<ChatRequest>, outgoing: seq<ChatRequest>)
    requires q in table.Values && q.status == Pending && q.fromId == user.uid
    requires user.uid !in table
    requires IsSnapshotOf(docs, UpdateStatus(table, CallAsWritten(RejectAction, user).requestId, Rejected))
    ensures UpdateStatus(table, CallAsWritten(RejectAction, user).requestId, Rejected) == table
    ensures ScreenStatus(IncomingRequests(q.toId, Some(docs)), outgoing, user.uid) == RECEIVED
  {
    PendingRequestOnBothScreens(table, docs, q, outgoing);
  }

  /** The smallest case: "alice" sent "bob" request "r1"; bob's Reject on alice's card leaves
      the request pending. */
  lemma RejectAsWrittenExample()
    ensures var table := map["r1" := ChatRequest("r1", "alice", "bob", Pending, 0)];
      UpdateStatus(table, CallAsWritten(RejectAction, User("alice", "Alice", "alice@example.com", None)).requestId, Rejected)["r1"].status == Pending
  {
  }

  /** With the corrected wiring, a card showing RECEIVED rejects the request it shows: the
      store marks that document rejected and no later incoming list of the recipient holds it. */
  lemma RejectFromRejectsShownRequest(table: map<string, ChatRequest>, docs: seq<ChatRequest>, me: string, outgoing: seq<ChatRequest>, user: User, later: seq<ChatRequest>)
    requires RequestsKeyed(table) && IsSnapshotOf(docs, table)
    requires ScreenStatus(IncomingRequests(me, Some(docs)), outgoing, user.uid) == RECEIVED
    ensures CallFor(RejectAction, user) == RejectFrom(user.uid)
    ensures FirstFrom(IncomingRequests(me, Some(docs)), user.uid).Some?
    ensures var q := FirstFrom(IncomingRequests(me, Some(docs)), user.uid).value;
      && q.id in table && table[q.id] == q && q.fromId == user.uid && q.toId == me
      && UpdateStatus(table, q.id, Rejected)[q.id].status == Rejected
      && (IsSnapshotOf(later, UpdateStatus(table, q.id, Rejected)) ==>
            forall p :: p in IncomingRequests(me, Some(later)) ==> p.id != q.id)
  {
    var incoming := IncomingRequests(me, Some(docs));
    var q := FirstFrom(incoming, user.uid).value;
    var i :| 0 <= i < |incoming| && incoming[i] == q;
    assert q in incoming && q in docs;
    var j :| 0 <= j < |docs| && docs[j] == q;
    assert table[docs[j].id] == q;
    if IsSnapshotOf(later, UpdateStatus(table, q.id, Rejected)) {
      RejectedLeavesBothViews(table, q.id, later, me);
    }
  }

  /** What a card shows where the photo would be (lines 98-112). */
  datatype Avatar = Photo(url: string) | Initial(letter: string)

  /** The photo when the profile URL is neither null nor blank, else the name's first
      character upper-cased, or "?" for an empty name. */
  function AvatarFor(userName: string, profileUrl: Option<string>): (a: Avatar)
    ensures a.Photo? <==> profileUrl.Some? && !IsBlank(profileUrl.value)
    ensures a.Photo? ==> a.url == profileUrl.value
    ensures a.Initial? ==> |a.letter| == 1 && !('a' <= a.letter[0] <= 'z')
    ensures a.Initial? && userName == [] ==> a.letter == "?"
    ensures a.Initial? && userName != [] && !('a' <= userName[0] <= 'z') ==> a.letter == [userName[0]]
    ensures a.Initial? && userName != [] && 'a' <= userName[0] <= 'z' ==> a.letter[0] as int == userName[0] as int - 32
  {
    if profileUrl.Some? && !IsBlank(profileUrl.value) then Photo(profileUrl.value)
    else if userName == [] then Initial("?")
    else Initial(UppercaseChar(userName[0]))
  }

  /** The title bar: `displayName ?: email?.substringBefore("@") ?: "You"`. */
  function Title(me: Option<AuthUser>): (t: string)
    ensures me.Some? && me.value.displayName.Some? ==> t == me.value.displayName.value
    ensures me.Some? && me.value.displayName.None? && me.value.email.Some? ==>
      t <= me.value.email.value && '@' !in t
    ensures me.Some? && me.value.displayName.None? && me.value.email.Some? && '@' in me.value.email.value ==>
      |t| < |me.value.email.value| && me.value.email.value[|t|] == '@'
    ensures me.Some? && me.value.displayName.None? && me.value.email.Some? && '@' !in me.value.email.value ==>
      t == me.value.email.value
    ensures me.None? || (me.value.displayName.None? && me.value.email.None?) ==> t == "You"
  {
    if me.None? then "You"
    else if me.value.displayName.Some? then me.value.displayName.value
    else if me.value.email.Some? then SubstringBefore(me.value.email.value, '@')
    else "You"
  }
}
