/** The legacy repositories of `models/Repository.kt`, over the realtime database:
    `AuthRepository` (sign-up and sign-in, which write the `users` node), `UserRepository`
    (user listing and write-if-absent, over the same `users` node) and `ChatRepository`
    (messages under `chats/{chatId}`). */
module Repository {
  import opened Models
  import opened KotlinText
  import opened PairKey
  import opened MessageOrder
  import opened Lists
  import UserRepo
  import ChatRepo

  /** What an identity-provider call did: it threw, or it returned a result whose `user` may
      be null. */
  datatype AuthCall = Threw(message: string) | Returned(user: Option<AuthUser>)

  /** Kotlin's `Result<Unit>`. */
  datatype UnitResult = Success | Failure(message: string)

  /** Sign-up name: the username unless it is blank, else the email's part before "@". */
  function SignUpName(username: string, email: string): (name: string)
    ensures !IsBlank(username) ==> name == username
    ensures IsBlank(username) ==> name <= email && '@' !in name
    ensures IsBlank(username) && '@' in email ==> |name| < |email| && email[|name|] == '@'
    ensures IsBlank(username) && '@' !in email ==> name == email
  {
    IfBlank(username, SubstringBefore(email, '@'))
  }

  /** Email sign-in name: `displayName ?: email.substringBefore("@")` with the entered email. */
  function EmailSignInName(account: AuthUser, enteredEmail: string): (name: string)
    ensures account.displayName.Some? ==> name == account.displayName.value
    ensures account.displayName.None? ==> name <= enteredEmail && '@' !in name
    ensures account.displayName.None? && '@' in enteredEmail ==> |name| < |enteredEmail| && enteredEmail[|name|] == '@'
    ensures account.displayName.None? && '@' !in enteredEmail ==> name == enteredEmail
  {
    if account.displayName.Some? then account.displayName.value else SubstringBefore(enteredEmail, '@')
  }

  /** Google sign-in name: `displayName ?: email?.substringBefore("@") ?: "User"`. */
  function GoogleSignInName(account: AuthUser): (name: string)
    ensures account.displayName.Some? ==> name == account.displayName.value
    ensures account.displayName.None? && account.email.Some? ==> name <= account.email.value && '@' !in name
    ensures account.displayName.None? && account.email.Some? && '@' in account.email.value ==>
      |name| < |account.email.value| && account.email.value[|name|] == '@'
    ensures account.displayName.None? && account.email.Some? && '@' !in account.email.value ==>
      name == account.email.value
    ensures account.displayName.None? && account.email.None? ==> name == "User"
  {
    if account.displayName.Some? then account.displayName.value
    else if account.email.Some? then SubstringBefore(account.email.value, '@')
    else "User"
  }

  /** Legacy `saveUserIfNew` name: `displayName ?: email ?: "Unknown"`, the whole email. */
  function LegacyNewUserName(account: AuthUser): (name: string)
    ensures account.displayName.Some? ==> name == account.displayName.value
    ensures account.displayName.None? && account.email.Some? ==> name == account.email.value
    ensures account.displayName.None? && account.email.None? ==> name == "Unknown"
  {
    if account.displayName.Some? then account.displayName.value
    else if account.email.Some? then account.email.value
    else "Unknown"
  }

  /** `email ?: default`. */
  function EmailOr(account: AuthUser, default: string): (r: string)
    ensures account.email.Some? ==> r == account.email.value
    ensures account.email.None? ==> r == default
  {
    if account.email.Some? then account.email.value else default
  }

  /** The realtime database's `users` node, by uid. Both legacy repositories default to
      `getReference("users")`, so both are given the same node. */
  class UsersNode {
    var users: map<string, User>

    constructor(users: map<string, User>)
      ensures this.users == users
    {
      this.users := users;
    }
  }

  class AuthRepository {
    /** The `users` node it writes. */
    const node: UsersNode

    constructor(node: UsersNode)
      ensures this.node == node
    {
      this.node := node;
    }

    /** `saveUserToDatabase`: overwrites the record at `uid`. */
    method SaveUserToDatabase(uid: string, username: string, email: string)
      modifies node
      ensures node.users == old(node.users)[uid := User(uid, username, email, None)]
    {
      node.users := node.users[uid := User(uid, username, email, None)];
    }

    /** `signUpWithEmail`; `call` is what account creation did. */
    method SignUpWithEmail(username: string, email: string, call: AuthCall) returns (result: UnitResult)
      modifies node
      ensures call.Threw? ==> result == Failure(call.message) && node.users == old(node.users)
      ensures call == Returned(None) ==> result == Failure("UID is null") && node.users == old(node.users)
      ensures call.Returned? && call.user.Some? ==>
        && result == Success
        && node.users == old(node.users)[call.user.value.uid := User(call.user.value.uid, SignUpName(username, email), email, None)]
    {
      match call
      case Threw(message) => result := Failure(message);
      case Returned(user) =>
        if user.None? {
          return Failure("UID is null");
        }
        SaveUserToDatabase(user.value.uid, SignUpName(username, email), email);
        result := Success;
    }

    /** `signInWithEmail`: stores `displayName ?: email prefix` and `user.email ?: email`. */
    method SignInWithEmail(email: string, call: AuthCall) returns (result: UnitResult)
      modifies node
      ensures call.Threw? ==> result == Failure(call.message) && node.users == old(node.users)
      ensures call == Returned(None) ==> result == Failure("UID is null") && node.users == old(node.users)
      ensures call.Returned? && call.user.Some? ==>
        var u := call.user.value;
        && result == Success
        && node.users == old(node.users)[u.uid := User(u.uid, EmailSignInName(u, email), EmailOr(u, email), None)]
    {
      match call
      case Threw(message) => result := Failure(message);
      case Returned(user) =>
        if user.None? {
          return Failure("UID is null");
        }
        var u := user.value;
        SaveUserToDatabase(u.uid, EmailSignInName(u, email), EmailOr(u, email));
        result := Success;
    }

    /** `signInWithGoogle`: stores `displayName ?: email prefix ?: "User"` and `email ?: ""`. */
    method SignInWithGoogle(call: AuthCall) returns (result: UnitResult)
      modifies node
      ensures call.Threw? ==> result == Failure(call.message) && node.users == old(node.users)
      ensures call == Returned(None) ==> result == Failure("User is null") && node.users == old(node.users)
      ensures call.Returned? && call.user.Some? ==>
        var u := call.user.value;
        && result == Success
        && node.users == old(node.users)[u.uid := User(u.uid, GoogleSignInName(u), EmailOr(u, ""), None)]
    {
      match call
      case Threw(message) => result := Failure(message);
      case Returned(user) =>
        if user.None? {
          return Failure("User is null");
        }
        var u := user.value;
        SaveUserToDatabase(u.uid, GoogleSignInName(u), EmailOr(u, ""));
        result := Success;
    }
  }

  /** One step of the listener's loop: the other users of one more child. */
  lemma OtherUsersStep(children: seq<User>, i: int, uid: Option<string>)
    requires 0 <= i < |children|
    ensures UserRepo.OtherUsers(children[..i + 1], uid) ==
      UserRepo.OtherUsers(children[..i], uid) + (if UserRepo.IsOther(children[i], uid) then [children[i]] else [])
  {
    assert children[..i + 1] == children[..i] + [children[i]];
    FilterSnoc(children[..i], children[i], u => UserRepo.IsOther(u, uid));
  }

  class UserRepository {
    /** The `users` node it reads and writes. */
    const node: UsersNode
    /** `auth.currentUser`. */
    var currentUser: Option<AuthUser>

    constructor(node: UsersNode, currentUser: Option<AuthUser>)
      ensures this.node == node && this.currentUser == currentUser
    {
      this.node := node;
      this.currentUser := currentUser;
    }

    /** One event of the `listenForUsers` listener: `onDataChange` walks the children and
        keeps every user other than the signed-in one; `onCancelled` (`snapshot == None`) only
        logs. */
    method ListenForUsers(snapshot: Option<seq<User>>) returns (delivered: Option<seq<User>>)
      ensures snapshot.None? ==> delivered.None?
      ensures snapshot.Some? ==> delivered == Some(UserRepo.OtherUsers(snapshot.value, UserRepo.CurrentUid(currentUser)))
    {
      if snapshot.None? {
        return None;
      }
      var children := snapshot.value;
      var uid := UserRepo.CurrentUid(currentUser);
      var list: seq<User> := [];
      var i := 0;
      while i < |children|
        invariant 0 <= i <= |children|
        invariant list == UserRepo.OtherUsers(children[..i], uid)
      {
        var user := children[i];
        OtherUsersStep(children, i, uid);
        if UserRepo.IsOther(user, uid) {
          list := list + [user];
        }
        i := i + 1;
      }
      assert children[..i] == children;
      delivered := Some(list);
    }

    /** `saveUserIfNew`: with a signed-in account and no record at its uid, writes one named
        `displayName ?: email ?: "Unknown"`; otherwise nothing changes. */
    method SaveUserIfNew()
      modifies node
      ensures forall k :: k in old(node.users) ==> k in node.users && node.users[k] == old(node.users)[k]
      ensures currentUser.None? ==> node.users == old(node.users)
      ensures currentUser.Some? && currentUser.value.uid !in old(node.users) ==>
        var u := currentUser.value;
        node.users == old(node.users)[u.uid := User(u.uid, LegacyNewUserName(u), EmailOr(u, ""), None)]
      ensures currentUser.Some? && currentUser.value.uid in old(node.users) ==> node.users == old(node.users)
    {
      if currentUser.None? {
        return;
      }
      var u := currentUser.value;
      if u.uid !in node.users {
        node.users := node.users[u.uid := User(u.uid, LegacyNewUserName(u), EmailOr(u, ""), None)];
      }
    }
  }

  /** The message the legacy `sendMessage` stores under the push key. */
  function PushedMessage(key: string, fromId: string, toId: string, text: string, now: int): (m: Message)
    ensures m.id == key && m.fromId == fromId && m.toId == toId && m.text == text && m.timestamp == now
  {
    Message(key, fromId, toId, text, Text, None, None, now)
  }

  class ChatRepository {
    /** The `chats` node: the messages of each conversation, in push-key order. */
    var chats: map<string, seq<Message>>

    ghost predicate Valid()
      reads this
    {
      ChatRepo.ConversationsKeyed(chats)
    }

    constructor()
      ensures Valid() && chats == map[]
    {
      chats := map[];
    }

    /** One delivery of the legacy `loadMessages`, both the one-shot read and every listener
        event: the pair's conversation, newest first. */
    method LoadMessages(currentUserId: string, otherUserId: string) returns (snapshot: seq<Message>)
      ensures SortedBy(snapshot, Descending)
      ensures multiset(snapshot) == multiset(ChatRepo.Stored(chats, ChatId(currentUserId, otherUserId)))
    {
      snapshot := SortByTimestamp(ChatRepo.Stored(chats, ChatId(currentUserId, otherUserId)), Descending);
    }

    /** `sendMessage`: `pushKey` is the key `push()` produced, if any; without one nothing is
        written, otherwise the message is stored with `id` equal to that key. */
    method SendMessage(fromId: string, toId: string, text: string, pushKey: Option<string>, now: int)
      requires Valid()
      modifies this
      ensures Valid()
      ensures pushKey.None? ==> chats == old(chats)
      ensures pushKey.Some? ==> chats == ChatRepo.Appended(old(chats), PushedMessage(pushKey.value, fromId, toId, text, now))
    {
      if pushKey.None? {
        return;
      }
      var message := PushedMessage(pushKey.value, fromId, toId, text, now);
      ChatRepo.AppendedKeepsKeys(chats, message);
      chats := ChatRepo.Appended(chats, message);
    }
  }
}
