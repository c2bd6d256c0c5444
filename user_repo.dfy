/** The live `UserRepository`: the `users` collection of the document store and the signed-in
    account (`auth.currentUser`). */
module UserRepo {
  import opened Models
  import opened KotlinText
  import opened Lists

  /** The uid of the signed-in account, if any (`auth.currentUser?.uid`). */
  function CurrentUid(currentUser: Option<AuthUser>): Option<string> {
    if currentUser.Some? then Some(currentUser.value.uid) else None
  }

  /** A user the directory shows: everyone except the signed-in account; with nobody signed in,
      `uid != null` holds for every user. */
  predicate IsOther(u: User, currentUid: Option<string>) {
    currentUid.None? || u.uid != currentUid.value
  }

  /** The users of a snapshot without the signed-in one, in snapshot order. */
  function OtherUsers(snapshot: seq<User>, currentUid: Option<string>): (r: seq<User>)
    ensures forall u :: u in r <==> u in snapshot && IsOther(u, currentUid)
    ensures currentUid.Some? ==> forall i :: 0 <= i < |r| ==> r[i].uid != currentUid.value
    ensures IsSubsequence(r, snapshot)
    ensures currentUid.None? ==> r == snapshot
    ensures forall u :: multiset(r)[u] == if IsOther(u, currentUid) then multiset(snapshot)[u] else 0
  {
    Filter(snapshot, u => IsOther(u, currentUid))
  }

  /** `displayName ?: email?.substringBefore("@") ?: "Unknown"`. */
  function NewUserName(account: AuthUser): (name: string)
    ensures account.displayName.Some? ==> name == account.displayName.value
    ensures account.displayName.None? && account.email.Some? ==>
      name <= account.email.value && '@' !in name
    ensures account.displayName.None? && account.email.Some? && '@' in account.email.value ==>
      |name| < |account.email.value| && account.email.value[|name|] == '@'
    ensures account.displayName.None? && account.email.Some? && '@' !in account.email.value ==>
      name == account.email.value
    ensures account.displayName.None? && account.email.None? ==> name == "Unknown"
  {
    if account.displayName.Some? then account.displayName.value
    else if account.email.Some? then SubstringBefore(account.email.value, '@')
    else "Unknown"
  }

  /** The record `saveUserIfNew` writes for a new account. */
  function NewUser(account: AuthUser, profileImageUrl: Option<string>): (u: User)
    ensures u.uid == account.uid && u.profileImageUrl == profileImageUrl
    ensures u.name == NewUserName(account)
    ensures u.email == (if account.email.Some? then account.email.value else "")
  {
    User(account.uid, NewUserName(account), if account.email.Some? then account.email.value else "", profileImageUrl)
  }

  /** The user table after `saveUserIfNew`: only a signed-in account without a record gets one. */
  function SavedIfNew(users: map<string, User>, currentUser: Option<AuthUser>, profileImageUrl: Option<string>): (r: map<string, User>)
    ensures forall k :: k in users ==> k in r && r[k] == users[k]
    ensures currentUser.None? ==> r == users
    ensures currentUser.Some? ==> r.Keys == users.Keys + {currentUser.value.uid}
    ensures currentUser.Some? && currentUser.value.uid !in users ==>
      r[currentUser.value.uid] == NewUser(currentUser.value, profileImageUrl)
  {
    if currentUser.None? || currentUser.value.uid in users then users
    else users[currentUser.value.uid := NewUser(currentUser.value, profileImageUrl)]
  }

  /** The user table after `updateProfileImage`: only the signed-in user's `profileImageUrl`
      changes; with nobody signed in, or no record to update (the update fails and the
      failure is caught), nothing changes. */
  function WithProfileImage(users: map<string, User>, currentUser: Option<AuthUser>, imageUrl: string): (r: map<string, User>)
    ensures r.Keys == users.Keys
    ensures forall k :: k in users && (currentUser.None? || k != currentUser.value.uid) ==> r[k] == users[k]
    ensures currentUser.Some? && currentUser.value.uid in users ==>
      r[currentUser.value.uid] == users[currentUser.value.uid].(profileImageUrl := Some(imageUrl))
  {
    if currentUser.Some? && currentUser.value.uid in users then
      users[currentUser.value.uid := users[currentUser.value.uid].(profileImageUrl := Some(imageUrl))]
    else users
  }

  /** Every user document is stored under its own uid. */
  ghost predicate UsersKeyed(users: map<string, User>) {
    forall k :: k in users ==> users[k].uid == k
  }

  class UserRepository {
    /** The `users` collection, by uid. */
    var users: map<string, User>
    /** `auth.currentUser`. */
    var currentUser: Option<AuthUser>

    ghost predicate Valid()
      reads this
    {
      UsersKeyed(users)
    }

    constructor(users: map<string, User>, currentUser: Option<AuthUser>)
      requires UsersKeyed(users)
      ensures Valid() && this.users == users && this.currentUser == currentUser
    {
      this.users := users;
      this.currentUser := currentUser;
    }

    /** One event of the `listenForUsers` listener: the snapshot's users without the signed-in
        one, or no callback (`None`) on a listener error (`snapshot == None`). */
    method ListenForUsers(snapshot: Option<seq<User>>) returns (delivered: Option<seq<User>>)
      ensures snapshot.None? ==> delivered.None?
      ensures snapshot.Some? ==> delivered == Some(OtherUsers(snapshot.value, CurrentUid(currentUser)))
    {
      if snapshot.None? {
        return None;
      }
      delivered := Some(OtherUsers(snapshot.value, CurrentUid(currentUser)));
    }

    /** `saveUserIfNew`: reads the signed-in user's document and writes one only if there is none. */
    method SaveUserIfNew(profileImageUrl: Option<string>)
      requires Valid()
      modifies this
      ensures Valid()
      ensures users == SavedIfNew(old(users), currentUser, profileImageUrl)
      ensures currentUser == old(currentUser)
    {
      if currentUser.None? {
        return;
      }
      var uid := currentUser.value.uid;
      if uid !in users {
        users := users[uid := NewUser(currentUser.value, profileImageUrl)];
      }
    }

    /** `updateProfileImage`. */
    method UpdateProfileImage(imageUrl: string)
      requires Valid()
      modifies this
      ensures Valid()
      ensures users == WithProfileImage(old(users), currentUser, imageUrl)
      ensures currentUser == old(currentUser)
    {
      if currentUser.None? {
        return;
      }
      var uid := currentUser.value.uid;
      if uid in users {
        users := users[uid := users[uid].(profileImageUrl := Some(imageUrl))];
      }
    }

    /** `signOut`: the account is signed out; stored records stay. */
    method SignOut()
      modifies this
      ensures currentUser == None && users == old(users)
    {
      currentUser := None;
    }
  }

  /** Saving twice is the same as saving once: the second call finds the record. */
  lemma SaveUserIfNewIdempotent(users: map<string, User>, currentUser: Option<AuthUser>, url1: Option<string>, url2: Option<string>)
    ensures SavedIfNew(SavedIfNew(users, currentUser, url1), currentUser, url2) == SavedIfNew(users, currentUser, url1)
  {
  }
}
