# Chat client core, modelled in Dafny

This project models the core of a small Android chat client, written in Kotlin over a
document store, a realtime database and a media host. It covers four areas:

- **Conversation keys and message logs.** `getChatId` is written three times with the same body. It maps an unordered pair of user ids to `smaller_larger`. The live message repository appends messages under that key and reads them back in ascending timestamp order; the legacy one reads them back newest first.
- **The chat-request state machine.** `sendRequest` creates a pending document. `acceptRequest` writes a chat document and then marks the request accepted. `rejectRequest` marks it rejected. Two live queries filter the request table: incoming and outgoing.
- **The users screen.** It derives a connection status for every listed user from those two lists. It maps the status to a label and to the buttons of the user's card, and shows an avatar. `UsersViewModel` keeps its own `_users` list, which two collectors rewrite.
- **The chat screen.** Its view model builds text, image and document messages. An attachment goes out only after a successful upload. The composer holds the typed text and one selected attachment, and sends at most one message per press.

The store is modelled as maps from ids to records.

- **Listener events** are method calls. A snapshot of a collection is any list that holds exactly its documents (`ChatReqRepo.IsSnapshotOf`). `None` stands for an event without a snapshot.
- **The clock and generated ids** are parameters: `now`, the document id `docId`, and the realtime database's `pushKey`.
- **The outcome of a store write or an upload** is a parameter too: the accept's chat write (`chatWriteOk`) and the upload function (`ChatBoxViewModel.Upload`). So is the file-name lookup (`fileNameOf`).

Kotlin's `<` on strings is the lexicographic order `KotlinText.Less`, proved a strict total order. `substringBefore`, `isBlank`, `ifBlank` and `Char.uppercase` are written out in `KotlinText`.

Modules follow the source files:

- `Models`: the records, as the code uses them
- `KotlinText`: the string operations
- `Lists`: filter, find
- `PairKey`: `getChatId`
- `MessageOrder`: timestamp order
- `ChatReqRepo`: `models/repository/ChatReqRepo.kt`
- `ChatRepo`: `models/repository/ChatRepositry.kt`
- `UserRepo`: `models/repository/UserRepo.kt`
- `Repository`: the legacy `models/Repository.kt`
- `ChatReqViewModel`: `viewModels/ChatReqViewModel.kt`
- `UserViewModel`: `viewModels/UserViewModel.kt`
- `UsersScreen`: `screens/UsersScreen.kt`
- `ChatBoxViewModel`: `viewModels/ChatBoxViewModel.kt`
- `ChatBox`: `screens/ChatBox.kt`

Objects whose fields the code reassigns are classes. Their methods state the new state through the pure functions, and the lemmas prove the promised properties about those functions.

The incoming query keeps only pending requests (ChatReqRepo.kt lines 29-30), while the outgoing query keeps pending and accepted ones. `UsersScreen.AcceptedRequestOnBothScreens` shows the consequence: after an accept, the recipient's card for the sender shows no status and a Send button.

## Model

All paths are under `app/src/main/java/com/example/basicchat/`.

| member | source | states |
|---|---|---|
| `KotlinText.Less` | app/src/main/java/com/example/basicchat/models/repository/ChatReqRepo.kt:67 | Kotlin's string `<`; proved a strict total order by the four lemmas below |
| `KotlinText.LessIrreflexive` | app/src/main/java/com/example/basicchat/models/repository/ChatReqRepo.kt:66-68 | no id is smaller than itself under Kotlin's string `<` |
| `KotlinText.LessAsymmetric` | app/src/main/java/com/example/basicchat/models/repository/ChatReqRepo.kt:66-68 | two ids are never each smaller than the other |
| `KotlinText.LessConnected` | app/src/main/java/com/example/basicchat/models/repository/ChatReqRepo.kt:66-68 | of two different ids one is smaller, so `getChatId` always has an order to go by |
| `KotlinText.LessTransitive` | app/src/main/java/com/example/basicchat/models/repository/ChatReqRepo.kt:66-68 | the string order is transitive |
| `KotlinText.SubstringBefore` | app/src/main/java/com/example/basicchat/models/repository/UserRepo.kt:47-49 | the result is a prefix without the delimiter, ending just before its first occurrence, or the whole string when there is none |
| `KotlinText.SubstringBeforeJoin` | app/src/main/java/com/example/basicchat/models/Repository.kt:188-190 | cutting `x + delimiter + y` at the delimiter gives back `x` when `x` has no delimiter |
| `KotlinText.IsWhitespace` | app/src/main/java/com/example/basicchat/screens/ChatBox.kt:179 | Kotlin's `Char.isWhitespace`: the Java whitespace and space-separator characters |
| `KotlinText.IsBlank` | app/src/main/java/com/example/basicchat/screens/ChatBox.kt:179 | `isBlank`: empty or whitespace only; the send button's text branch and `ifBlank` use it |
| `KotlinText.IfBlank` | app/src/main/java/com/example/basicchat/models/Repository.kt:34 | a non-blank string is kept, a blank one replaced by the default |
| `KotlinText.UppercaseChar` | app/src/main/java/com/example/basicchat/screens/UsersScreen.kt:107 | one character; lower-case ASCII letters become upper case, everything else stays |
| `Lists.Filter` | app/src/main/java/com/example/basicchat/models/repository/UserRepo.kt:30 | an element is kept iff it is in the list and satisfies the predicate, with as many copies as the list has; order is kept; all kept when all satisfy it |
| `Lists.FilterSnoc` | app/src/main/java/com/example/basicchat/models/Repository.kt:106-112 | filtering a list extended at the end extends the filtered list by that element iff it satisfies the predicate |
| `Lists.Find` | app/src/main/java/com/example/basicchat/viewModels/UserViewModel.kt:94 | `None` iff no element satisfies the predicate, otherwise the first one that does |
| `PairKey.ChatId` | app/src/main/java/com/example/basicchat/models/repository/ChatReqRepo.kt:66-68 | `getChatId`, defined once for its three identical copies; its properties are the four lemmas below |
| `PairKey.ChatIdSymmetric` | app/src/main/java/com/example/basicchat/models/repository/ChatReqRepo.kt:66-68 | `getChatId(a, b) == getChatId(b, a)` |
| `PairKey.ChatIdCanonical` | app/src/main/java/com/example/basicchat/models/repository/ChatRepositry.kt:42-45 | the key is the smaller id, `_`, the larger id |
| `PairKey.ChatIdInjective` | app/src/main/java/com/example/basicchat/models/repository/ChatRepositry.kt:37-40 | for ids without `_`, equal keys mean the same unordered pair |
| `PairKey.ChatIdCollision` | app/src/main/java/com/example/basicchat/models/Repository.kt:188-190 | ids containing `_` can collide: ("a_b","c") and ("a","b_c") share the key "a_b_c" |
| `MessageOrder.Insert` | app/src/main/java/com/example/basicchat/models/Repository.kt:160 | inserting into a sorted conversation keeps it sorted and adds exactly that message |
| `MessageOrder.FirstBelowInserted` | app/src/main/java/com/example/basicchat/models/Repository.kt:160 | a head smaller than the inserted message stays in front of the sorted rest |
| `MessageOrder.SortByTimestamp` | app/src/main/java/com/example/basicchat/models/repository/ChatRepositry.kt:24-25 | the result is sorted in the given direction and is a permutation of the conversation |
| `MessageOrder.SortedSnapshotHasEveryMessage` | app/src/main/java/com/example/basicchat/models/repository/ChatRepositry.kt:24-33 | every stored message is in the ordered snapshot |
| `MessageOrder.AscendingExample` | app/src/main/java/com/example/basicchat/models/repository/ChatRepositry.kt:24-25 | timestamps 5, 1, 3 are delivered as 1, 3, 5 |
| `MessageOrder.DescendingExample` | app/src/main/java/com/example/basicchat/models/Repository.kt:160 | timestamps 5, 1, 3 are delivered newest first as 5, 3, 1 |
| `ChatReqRepo.IncomingRequests` | app/src/main/java/com/example/basicchat/models/repository/ChatReqRepo.kt:27-35 | exactly the snapshot's requests to the user with status pending, each as often as the snapshot lists it, in snapshot order; the empty list for an event without a snapshot |
| `ChatReqRepo.OutgoingRequests` | app/src/main/java/com/example/basicchat/models/repository/ChatReqRepo.kt:38-46 | exactly the snapshot's requests from the user that are not rejected, each as often as the snapshot lists it, in snapshot order; the empty list without a snapshot |
| `ChatReqRepo.UpdateStatus` | app/src/main/java/com/example/basicchat/models/repository/ChatReqRepo.kt:62-64 | only the named document's status changes; updating a missing document changes nothing |
| `ChatReqRepo.ChatFor` | app/src/main/java/com/example/basicchat/models/repository/ChatReqRepo.kt:50-57 | the chat document is keyed by the pair key, with participants `[fromId, toId]` in that order and `createdAt` the current time |
| `ChatReqRepo.ChatRequestRepository.SendRequest` | app/src/main/java/com/example/basicchat/models/repository/ChatReqRepo.kt:14-24 | adds one pending request with the given ids under the new document id; no duplicate or self check; chats untouched |
| `ChatReqRepo.ChatRequestRepository.AcceptRequest` | app/src/main/java/com/example/basicchat/models/repository/ChatReqRepo.kt:49-59 | chat first, overwriting any chat of the pair, then the status; a failed chat write changes nothing; the current status is not looked at |
| `ChatReqRepo.ChatRequestRepository.RejectRequest` | app/src/main/java/com/example/basicchat/models/repository/ChatReqRepo.kt:62-64 | only the status of the named document becomes rejected; no chat is written; fails iff there is no such document |
| `ChatReqRepo.IncomingViewOfTable` | app/src/main/java/com/example/basicchat/models/repository/ChatReqRepo.kt:27-35 | the incoming view of a snapshot is exactly the table's pending requests to the user |
| `ChatReqRepo.OutgoingViewOfTable` | app/src/main/java/com/example/basicchat/models/repository/ChatReqRepo.kt:38-46 | the outgoing view is exactly the table's pending and accepted requests from the user; rejected ones never appear |
| `ChatReqRepo.SentRequestIsVisible` | app/src/main/java/com/example/basicchat/models/repository/ChatReqRepo.kt:14-46 | a sent request appears in the recipient's incoming and the sender's outgoing view |
| `ChatReqRepo.AcceptedLeavesIncoming` | app/src/main/java/com/example/basicchat/models/repository/ChatReqRepo.kt:27-59 | after an accept the request drops out of every incoming view but stays in the sender's outgoing view |
| `ChatReqRepo.RejectedLeavesBothViews` | app/src/main/java/com/example/basicchat/models/repository/ChatReqRepo.kt:27-64 | after a reject the request is in no incoming and no outgoing view |
| `ChatRepo.Appended` | app/src/main/java/com/example/basicchat/models/repository/ChatRepositry.kt:37-40 | the message is added at the end of its pair's conversation; every other conversation is unchanged |
| `ChatRepo.AppendedKeepsKeys` | app/src/main/java/com/example/basicchat/models/repository/ChatRepositry.kt:37-40 | appending keeps every message in the conversation of its own pair |
| `ChatRepo.ChatRepository.SendMessage` | app/src/main/java/com/example/basicchat/models/repository/ChatRepositry.kt:37-40 | the message, as given (id and timestamp untouched), is appended to its pair's conversation |
| `ChatRepo.ChatRepository.LoadMessages` | app/src/main/java/com/example/basicchat/models/repository/ChatRepositry.kt:17-34 | a delivery is the pair's conversation in ascending timestamp order; a listener error delivers nothing |
| `ChatRepo.LoadIsSymmetric` | app/src/main/java/com/example/basicchat/models/repository/ChatRepositry.kt:22 | `loadMessages(a, b)` and `loadMessages(b, a)` read the same conversation |
| `ChatRepo.SentMessageIsDelivered` | app/src/main/java/com/example/basicchat/models/repository/ChatRepositry.kt:24-40 | a sent message is in the next delivery to the sender and to the recipient |
| `ChatRepo.ConversationHoldsOnlyThePair` | app/src/main/java/com/example/basicchat/models/repository/ChatRepositry.kt:22-40 | with ids free of `_`, a conversation read for a and b holds only messages between a and b |
| `UserRepo.OtherUsers` | app/src/main/java/com/example/basicchat/models/repository/UserRepo.kt:28-31 | the snapshot's users without the signed-in uid, each as often as the snapshot lists them, in snapshot order; everyone with nobody signed in |
| `UserRepo.NewUserName` | app/src/main/java/com/example/basicchat/models/repository/UserRepo.kt:47-49 | display name, else the e-mail up to just before its first `@` (the whole e-mail when it has none), else "Unknown" |
| `UserRepo.NewUser` | app/src/main/java/com/example/basicchat/models/repository/UserRepo.kt:45-51 | the new record carries the uid, that name, the e-mail or "", and the given image URL |
| `UserRepo.SavedIfNew` | app/src/main/java/com/example/basicchat/models/repository/UserRepo.kt:39-57 | no change without a signed-in user; an existing record is never changed; a missing one is added |
| `UserRepo.WithProfileImage` | app/src/main/java/com/example/basicchat/models/repository/UserRepo.kt:60-70 | only the signed-in user's `profileImageUrl` changes; no change without a user or without a record |
| `UserRepo.UserRepository.ListenForUsers` | app/src/main/java/com/example/basicchat/models/repository/UserRepo.kt:17-36 | a snapshot delivers the other users; a listener error delivers nothing |
| `UserRepo.UserRepository.SaveUserIfNew` | app/src/main/java/com/example/basicchat/models/repository/UserRepo.kt:39-57 | the user table becomes `SavedIfNew` of the old one |
| `UserRepo.UserRepository.UpdateProfileImage` | app/src/main/java/com/example/basicchat/models/repository/UserRepo.kt:60-70 | the user table becomes `WithProfileImage` of the old one |
| `UserRepo.UserRepository.SignOut` | app/src/main/java/com/example/basicchat/models/repository/UserRepo.kt:73-75 | nobody is signed in afterwards; records stay |
| `UserRepo.SaveUserIfNewIdempotent` | app/src/main/java/com/example/basicchat/models/repository/UserRepo.kt:44-56 | saving twice is saving once |
| `Repository.SignUpName` | app/src/main/java/com/example/basicchat/models/Repository.kt:34 | the username unless blank, else the e-mail up to just before its first `@` (the whole e-mail when it has none) |
| `Repository.EmailSignInName` | app/src/main/java/com/example/basicchat/models/Repository.kt:50 | display name, else the entered e-mail up to just before its first `@` (the whole e-mail when it has none) |
| `Repository.GoogleSignInName` | app/src/main/java/com/example/basicchat/models/Repository.kt:70 | display name, else the e-mail up to just before its first `@` (the whole e-mail when it has none), else "User" |
| `Repository.LegacyNewUserName` | app/src/main/java/com/example/basicchat/models/Repository.kt:131 | display name, else the whole e-mail, else "Unknown" |
| `Repository.EmailOr` | app/src/main/java/com/example/basicchat/models/Repository.kt:51 | `email ?: default`: the account's e-mail when there is one, else the default |
| `Repository.UsersNode.constructor` | app/src/main/java/com/example/basicchat/models/Repository.kt:22 | the one `users` node both legacy repositories are given, holding the given records |
| `Repository.AuthRepository.SaveUserToDatabase` | app/src/main/java/com/example/basicchat/models/Repository.kt:87-93 | the record at the uid in the shared `users` node is overwritten with the given name and e-mail, so the legacy `UserRepository` sees it |
| `Repository.AuthRepository.SignUpWithEmail` | app/src/main/java/com/example/basicchat/models/Repository.kt:28-41 | an exception becomes a failure carrying its message; no user gives "UID is null"; otherwise the record is written and the result is success |
| `Repository.AuthRepository.SignInWithEmail` | app/src/main/java/com/example/basicchat/models/Repository.kt:44-59 | as sign-up, storing the sign-in name and `user.email ?: entered email` |
| `Repository.AuthRepository.SignInWithGoogle` | app/src/main/java/com/example/basicchat/models/Repository.kt:62-79 | as sign-up with "User is null", storing the Google name and `email ?: ""` |
| `Repository.UserRepository.ListenForUsers` | app/src/main/java/com/example/basicchat/models/Repository.kt:103-121 | the loop builds exactly the other users, in snapshot order; a cancelled listener delivers nothing |
| `Repository.OtherUsersStep` | app/src/main/java/com/example/basicchat/models/Repository.kt:106-112 | one turn of the listener's loop adds the child iff it is not the signed-in user |
| `Repository.UserRepository.SaveUserIfNew` | app/src/main/java/com/example/basicchat/models/Repository.kt:123-143 | writes to the shared `users` node only when signed in and no record exists there, so a record a sign-in wrote is kept; existing records are kept |
| `Repository.PushedMessage` | app/src/main/java/com/example/basicchat/models/Repository.kt:177-183 | the stored message's id is the push key |
| `Repository.ChatRepository.LoadMessages` | app/src/main/java/com/example/basicchat/models/Repository.kt:154-171 | a delivery, from the one-shot read or from the live listener, is the pair's conversation newest first |
| `Repository.ChatRepository.SendMessage` | app/src/main/java/com/example/basicchat/models/Repository.kt:173-186 | without a push key nothing is written; otherwise the message is appended under its key |
| `ChatReqViewModel.ListenersDeliverLiveLists` | app/src/main/java/com/example/basicchat/models/repository/ChatReqRepo.kt:27-46 | incoming lists hold only pending requests; outgoing lists hold no rejected ones |
| `ChatReqViewModel.ChatRequestViewModel.constructor` | app/src/main/java/com/example/basicchat/viewModels/ChatReqViewModel.kt:15-19 | both lists start empty |
| `ChatReqViewModel.ChatRequestViewModel.OnIncomingRequests` | app/src/main/java/com/example/basicchat/viewModels/ChatReqViewModel.kt:21-25 | the delivered list replaces the incoming list wholesale; the outgoing list is unchanged |
| `ChatReqViewModel.ChatRequestViewModel.OnOutgoingRequests` | app/src/main/java/com/example/basicchat/viewModels/ChatReqViewModel.kt:27-31 | the delivered list replaces the outgoing list wholesale; the incoming list is unchanged |
| `ChatReqViewModel.ChatRequestViewModel.SendRequest` | app/src/main/java/com/example/basicchat/viewModels/ChatReqViewModel.kt:33-35 | forwards its arguments unchanged to the repository |
| `ChatReqViewModel.ChatRequestViewModel.AcceptRequest` | app/src/main/java/com/example/basicchat/viewModels/ChatReqViewModel.kt:37-39 | forwards the request unchanged |
| `ChatReqViewModel.ChatRequestViewModel.RejectRequest` | app/src/main/java/com/example/basicchat/viewModels/ChatReqViewModel.kt:41-43 | forwards the id unchanged |
| `UserViewModel.FreshEntries` | app/src/main/java/com/example/basicchat/viewModels/UserViewModel.kt:38-43 | every user snapshot gives the same users in the same order, all with status NONE |
| `UserViewModel.RefreshIncoming` | app/src/main/java/com/example/basicchat/viewModels/UserViewModel.kt:56-66 | users, length and order are kept; a user with a pending request from them becomes RECEIVED, else with an accepted one ACCEPTED, else with a rejected one REJECTED; users no incoming request comes from keep their status |
| `UserViewModel.RefreshOutgoing` | app/src/main/java/com/example/basicchat/viewModels/UserViewModel.kt:71-82 | users, length and order are kept; a user with a pending request to them becomes SENT, else with an accepted one ACCEPTED, else with a rejected one REJECTED; users no outgoing request goes to keep their status |
| `UserViewModel.FirstFrom` | app/src/main/java/com/example/basicchat/screens/UsersScreen.kt:196 | the first request from the uid, `None` iff there is none |
| `UserViewModel.FirstTo` | app/src/main/java/com/example/basicchat/screens/UsersScreen.kt:197 | the first request to the uid, `None` iff there is none |
| `UserViewModel.WithLocalProfileImage` | app/src/main/java/com/example/basicchat/viewModels/UserViewModel.kt:112-115 | the entries of the given uid get the new image and nothing else; all other entries, and every status, stay |
| `UserViewModel.LiveIncomingRefresh` | app/src/main/java/com/example/basicchat/viewModels/UserViewModel.kt:56-66 | with a listener's list, a user becomes RECEIVED iff some request comes from them, and the ACCEPTED and REJECTED arms never fire |
| `UserViewModel.IncomingStatus` | app/src/main/java/com/example/basicchat/viewModels/UserViewModel.kt:58-63 | the incoming `when` for one user: a user no request comes from keeps their status; a changed status is RECEIVED, ACCEPTED or REJECTED |
| `UserViewModel.OutgoingStatus` | app/src/main/java/com/example/basicchat/viewModels/UserViewModel.kt:73-78 | the outgoing `when` for one user: a user no request goes to keeps their status; a changed status is SENT, ACCEPTED or REJECTED |
| `UserViewModel.LiveOutgoingRefresh` | app/src/main/java/com/example/basicchat/viewModels/UserViewModel.kt:71-82 | with a listener's list, a user some pending request goes to becomes SENT, a user whose requests are all accepted becomes ACCEPTED, and any other user keeps their status |
| `UserViewModel.LiveOutgoingRefreshNeverRejects` | app/src/main/java/com/example/basicchat/viewModels/UserViewModel.kt:71-82 | with a listener's list, the outgoing collector never makes a user REJECTED |
| `UserViewModel.RefreshIncomingIdempotent` | app/src/main/java/com/example/basicchat/viewModels/UserViewModel.kt:56-66 | refreshing twice with the same list is refreshing once |
| `UserViewModel.RefreshOrderMatters` | app/src/main/java/com/example/basicchat/viewModels/UserViewModel.kt:55-83 | with pending requests both ways, the last collector to run decides: RECEIVED or SENT |
| `UserViewModel.LocalImageMatchesStore` | app/src/main/java/com/example/basicchat/viewModels/UserViewModel.kt:108-116 | entries that show stored records still do after the store and local image updates |
| `UserViewModel.LocalImageMissesListedUsers` | app/src/main/java/com/example/basicchat/viewModels/UserViewModel.kt:112-115 | the listed users never include the signed-in one, so on a listed snapshot the local update changes nothing |
| `UserViewModel.UsersViewModel.constructor` | app/src/main/java/com/example/basicchat/viewModels/UserViewModel.kt:28-34 | the list starts empty, `currentUserId` is the signed-in uid or "", and the signed-in user's record is written if missing |
| `UserViewModel.UsersViewModel.ObserveUsers` | app/src/main/java/com/example/basicchat/viewModels/UserViewModel.kt:37-44 | a delivered snapshot resets the list to the other users, all NONE; an error changes nothing |
| `UserViewModel.UsersViewModel.OnIncomingEvent` | app/src/main/java/com/example/basicchat/viewModels/UserViewModel.kt:47-68 | nothing without a signed-in user; otherwise the incoming list is replaced, and the collector refreshes the statuses when that list changed |
| `UserViewModel.UsersViewModel.OnOutgoingEvent` | app/src/main/java/com/example/basicchat/viewModels/UserViewModel.kt:70-83 | the same for the outgoing list |
| `UserViewModel.UsersViewModel.SendRequest` | app/src/main/java/com/example/basicchat/viewModels/UserViewModel.kt:87-91 | sends from the signed-in user; does nothing when `currentUserId` is empty |
| `UserViewModel.UsersViewModel.AcceptRequest` | app/src/main/java/com/example/basicchat/viewModels/UserViewModel.kt:93-96 | accepts the first incoming request from the user; does nothing when there is none |
| `UserViewModel.UsersViewModel.RejectRequest` | app/src/main/java/com/example/basicchat/viewModels/UserViewModel.kt:97-99 | rejects the document with the given id, unchanged |
| `UserViewModel.UsersViewModel.RejectRequestFrom` | app/src/main/java/com/example/basicchat/viewModels/UserViewModel.kt:93-99 | corrected reject: rejects the first incoming request from the user, as accept finds it |
| `UserViewModel.UsersViewModel.SignOut` | app/src/main/java/com/example/basicchat/viewModels/UserViewModel.kt:102-105 | signs out and empties the list |
| `UserViewModel.UsersViewModel.UpdateProfileImage` | app/src/main/java/com/example/basicchat/viewModels/UserViewModel.kt:108-117 | the store's record, then only the local entry of `currentUserId`, get the new image |
| `UsersScreen.ScreenStatus` | app/src/main/java/com/example/basicchat/screens/UsersScreen.kt:196-205 | the screen's `when` for one user over the first incoming and first outgoing request; every arm is stated on `UsersWithStatus` |
| `UsersScreen.UsersWithStatus` | app/src/main/java/com/example/basicchat/screens/UsersScreen.kt:195-208 | users, length and order are kept; with `inc` the first incoming request from the user and `out` the first outgoing one to them: RECEIVED iff `inc` is pending; SENT iff `inc` is not pending and `out` is; ACCEPTED iff neither is pending and one is accepted; REJECTED iff neither is pending or accepted and one is rejected; NONE iff neither exists |
| `UsersScreen.FirstIs` | app/src/main/java/com/example/basicchat/screens/UsersScreen.kt:199-205 | a lookup found a request with the given status, as each arm of the `when` tests |
| `UsersScreen.ScreenStatusIgnoresStoredStatus` | app/src/main/java/com/example/basicchat/screens/UsersScreen.kt:195-208 | the screen's statuses depend only on the users and the two lists, not on the view model's statuses |
| `UsersScreen.LiveScreenNeverRejected` | app/src/main/java/com/example/basicchat/screens/UsersScreen.kt:199-205 | with the listeners' lists the screen never derives REJECTED |
| `UsersScreen.PendingRequestOnBothScreens` | app/src/main/java/com/example/basicchat/screens/UsersScreen.kt:195-205 | a pending request shows as RECEIVED to the recipient and, when it is the only one between the two, as SENT to the sender |
| `UsersScreen.AcceptedRequestOnBothScreens` | app/src/main/java/com/example/basicchat/screens/UsersScreen.kt:195-205 | an accepted request shows as ACCEPTED to the sender but as NONE to the recipient |
| `UsersScreen.SnapshotDocument` | app/src/main/java/com/example/basicchat/models/repository/ChatReqRepo.kt:31-32 | a document of a snapshot is the table's document under its id |
| `UsersScreen.SenderView` | app/src/main/java/com/example/basicchat/screens/UsersScreen.kt:196-197 | when `q` is the only request between the two, nothing comes in from the recipient and the first request going out is `q` |
| `UsersScreen.RecipientView` | app/src/main/java/com/example/basicchat/screens/UsersScreen.kt:196-197 | for an accepted only request, neither of the recipient's lists holds a request involving the sender |
| `UsersScreen.StatusText` | app/src/main/java/com/example/basicchat/screens/UsersScreen.kt:124-131 | the label is empty iff the status is NONE |
| `UsersScreen.StatusTextDistinct` | app/src/main/java/com/example/basicchat/screens/UsersScreen.kt:124-131 | different statuses have different labels |
| `UsersScreen.Buttons` | app/src/main/java/com/example/basicchat/screens/UsersScreen.kt:142-166 | Send iff NONE, Accept and Reject iff RECEIVED, Chat iff ACCEPTED, one disabled "Pending" for SENT, nothing iff REJECTED |
| `UsersScreen.CallAsWritten` | app/src/main/java/com/example/basicchat/screens/UsersScreen.kt:229-232 | as wired, Reject hands the user's uid to `rejectRequest`; the other buttons call as `CallFor` does |
| `UsersScreen.CallFor` | app/src/main/java/com/example/basicchat/screens/UsersScreen.kt:229-232 | each button calls the view model with the card's uid, the corrected Reject included |
| `UsersScreen.RejectAsWrittenKeepsRequest` | app/src/main/java/com/example/basicchat/screens/UsersScreen.kt:232 | when no document is named by the uid, Reject changes nothing and the card keeps showing RECEIVED |
| `UsersScreen.RejectAsWrittenExample` | app/src/main/java/com/example/basicchat/screens/UsersScreen.kt:232 | bob's Reject on alice's card leaves request "r1" pending |
| `UsersScreen.RejectFromRejectsShownRequest` | app/src/main/java/com/example/basicchat/screens/UsersScreen.kt:231-232 | with the corrected wiring, a RECEIVED card's Reject marks the shown request rejected, and it leaves every later incoming list |
| `UsersScreen.AvatarFor` | app/src/main/java/com/example/basicchat/screens/UsersScreen.kt:98-112 | the photo iff the URL is neither null nor blank; otherwise the first character upper-cased, or "?" for an empty name |
| `UsersScreen.Title` | app/src/main/java/com/example/basicchat/screens/UsersScreen.kt:213 | display name, else the e-mail up to just before its first `@` (the whole e-mail when it has none), else "You" |
| `ChatBoxViewModel.TextMessage` | app/src/main/java/com/example/basicchat/viewModels/ChatBoxViewModel.kt:33-39 | type text, the given text, no file URL, no file name, empty id |
| `ChatBoxViewModel.ImageMessage` | app/src/main/java/com/example/basicchat/viewModels/ChatBoxViewModel.kt:63-70 | type image, text "", the uploaded URL, no file name |
| `ChatBoxViewModel.DocumentMessage` | app/src/main/java/com/example/basicchat/viewModels/ChatBoxViewModel.kt:97-105 | type document, text "", the uploaded URL, the given file name |
| `ChatBoxViewModel.BuiltFromItsFields` | app/src/main/java/com/example/basicchat/viewModels/ChatBoxViewModel.kt:33-105 | a well-formed message without id is exactly what the builder of its kind makes from its fields |
| `ChatBoxViewModel.ChatViewModel.constructor` | app/src/main/java/com/example/basicchat/viewModels/ChatBoxViewModel.kt:19-20 | the message list starts empty |
| `ChatBoxViewModel.ChatViewModel.LoadMessages` | app/src/main/java/com/example/basicchat/viewModels/ChatBoxViewModel.kt:23-27 | each delivered snapshot, the pair's conversation in ascending timestamp order, becomes `_messages`; an error leaves it |
| `ChatBoxViewModel.ChatViewModel.SendTextMessage` | app/src/main/java/com/example/basicchat/viewModels/ChatBoxViewModel.kt:30-45 | the text message is appended; no check for blank text or empty ids |
| `ChatBoxViewModel.ChatViewModel.SendImageMessage` | app/src/main/java/com/example/basicchat/viewModels/ChatBoxViewModel.kt:48-78 | uploads to "chat_images" with "chat_upload"; sends the image message iff the upload produced a URL |
| `ChatBoxViewModel.ChatViewModel.SendDocumentMessage` | app/src/main/java/com/example/basicchat/viewModels/ChatBoxViewModel.kt:81-113 | uploads to "chat_documents"; sends the document message iff the upload produced a URL |
| `ChatBox.DispatchFor` | app/src/main/java/com/example/basicchat/screens/ChatBox.kt:161-186 | image attachment first, then document (named "Document" when unnamed), then non-blank text; nothing iff the text is blank and no attachment is selected |
| `ChatBox.AfterDispatch` | app/src/main/java/com/example/basicchat/screens/ChatBox.kt:161-186 | the conversations after the view model carries out a dispatch; `AtMostOneMessage` states what it adds |
| `ChatBox.AtMostOneMessage` | app/src/main/java/com/example/basicchat/screens/ChatBox.kt:160-191 | a press adds no message, or one well-formed message of the pair |
| `ChatBox.IsMe` | app/src/main/java/com/example/basicchat/screens/ChatBox.kt:206 | `isMe`: the message was sent by the signed-in user; `IsMeSplitsConversation` states what it separates |
| `ChatBox.IsMeSplitsConversation` | app/src/main/java/com/example/basicchat/screens/ChatBox.kt:206 | in my conversation with `other`, my messages went to `other` and all the others came from `other` |
| `ChatBox.FallbackNameUnused` | app/src/main/java/com/example/basicchat/screens/ChatBox.kt:61-67 | in reachable composer states a document always has its picked name, and an attachment is sent iff one is selected |
| `ChatBox.ChatBoxScreen.constructor` | app/src/main/java/com/example/basicchat/screens/ChatBox.kt:43-47 | the composer starts empty |
| `ChatBox.ChatBoxScreen.OnMessagesEvent` | app/src/main/java/com/example/basicchat/screens/ChatBox.kt:69-71 | opening the screen listens to the pair's conversation; each delivery shows it in ascending timestamp order; an error leaves the list |
| `ChatBox.ChatBoxScreen.OnImagePicked` | app/src/main/java/com/example/basicchat/screens/ChatBox.kt:49-57 | sets URI, type image and no name; a cancelled pick changes nothing |
| `ChatBox.ChatBoxScreen.OnDocumentPicked` | app/src/main/java/com/example/basicchat/screens/ChatBox.kt:59-67 | sets URI, type document and the looked-up name; a cancelled pick changes nothing |
| `ChatBox.ChatBoxScreen.OnClear` | app/src/main/java/com/example/basicchat/screens/ChatBox.kt:107-111 | clears URI, type and name and keeps the text |
| `ChatBox.ChatBoxScreen.OnMessageTextChange` | app/src/main/java/com/example/basicchat/screens/ChatBox.kt:155 | replaces the text, keeps the attachment |
| `ChatBox.ChatBoxScreen.OnSendClick` | app/src/main/java/com/example/basicchat/screens/ChatBox.kt:160-191 | sends what `DispatchFor` chooses, then empties the text and the attachment whatever branch ran |

## Left out

- **Compose rendering.** Layout, colours, images and intents are not modelled. Neither is the attach menu's `showAttachMenu` flag or the reversed display of the message list (ChatBox.kt lines 198-205). The sign-up, profile and navigation screens are not part of this model.
- **Exceptions from awaited writes.** `acceptRequest` and `rejectRequest` await their `set` and `update` (ChatReqRepo.kt lines 51-58, 63), and the view model launches them without a catch (ChatReqViewModel.kt lines 37-43). A failed chat write, or an `update` of a document that does not exist, therefore throws out of the coroutine. The model keeps only the store state: nothing is written after the failure. It returns `ChatWriteFailed`, `StatusUpdateFailed` or `Failed` in place of the exception. It does not model what the uncaught exception does to the app afterwards.
- **Store and identity-provider internals.** `await`, listener registration and lifecycle, and offline behaviour are left out. Every write is assumed to succeed except these: the accept's chat write (`chatWriteOk`), `update` on a missing document, the upload, and a missing push key.
  - Failures of `sendRequest`'s `set` and `sendMessage`'s `add` are left out. So are the `get` and `set` of the two `saveUserIfNew` versions, and the legacy `setValue` calls.
  - The exceptions that `sendTextMessage` catches are left out.
- **Deserialization.** Every document is assumed to deserialize; the records `toObjects` and `mapNotNull` would drop are never there.
- **Snapshot order.** A snapshot lists a collection's documents in an order the store chooses; the model takes any order.
- `MessageOrder.SortByTimestamp`: its contract states sortedness and the permutation, not which of two messages with equal timestamps comes first. Its definition is a stable insertion sort; stability is not proved. Firestore's own tie order is not modelled.
- `ChatRepo.ChatRepository.LoadMessages`: states order and contents up to ties among equal timestamps, for the reason above.
- `Repository.ChatRepository.LoadMessages`: states the newest-first order and the contents, not the order among equal timestamps. Kotlin's `sortedByDescending` is stable, so ties keep the node's push-key order; the model's sort is stable too, but that is not proved.
- `ChatBoxViewModel.ChatViewModel.LoadMessages`: states ascending order and contents up to ties among equal timestamps, as `ChatRepo.ChatRepository.LoadMessages` does.
- `ChatBox.ChatBoxScreen.OnMessagesEvent`: states ascending order and contents up to ties among equal timestamps, as `ChatRepo.ChatRepository.LoadMessages` does.
- **Coroutines.** Each launched operation is one atomic step, and the two collectors run right after their list changes. The constructor's launched `saveUserIfNew` is done during construction. Interleavings of these steps are not modelled. The `StateFlow` rule that equal values are not re-emitted is modelled.
- **Media upload and `getFileName`.** The upload service is the function parameter `Upload`: it takes the local URI, the folder and the preset, and returns a URL or failure. The `Context` argument is dropped and URIs are strings. `getFileName` is the function parameter `fileNameOf`; its internal "document" fallback is not part of this model.
- **Clock and generated ids.** `System.currentTimeMillis` is the parameter `now`. The generated document id is `docId`; that it is fresh is not assumed, and a reused id overwrites.
- `KotlinText.UppercaseChar`: upper-cases ASCII letters only. Kotlin's full Unicode mapping, which can give more than one character, is not modelled; so `UsersScreen.AvatarFor` is exact only for ASCII initials.
- `KotlinText.Less`: compares Unicode scalar values. Kotlin compares UTF-16 code units, and the two orders differ only for characters outside the Basic Multilingual Plane.
- **Legacy sign-out and `currentUser`.** `AuthRepository.signOut`, the legacy `UserRepository.signOut` and the `currentUser` getter only forward to the identity provider (Repository.kt lines 25, 82-84, 145-147). The live `UserRepo.UserRepository.SignOut` models the same call.
- **Legacy message type.** The legacy `Message` class (models/dataClass.kt lines 16-22) has no type, file URL or file name. The model uses the one `Message` record and assumes type text with no file for a legacy message.
- **Two request view models.** The users screen and `UsersViewModel` each hold a `ChatRequestViewModel`. The screen's listeners (UsersScreen.kt lines 188-193) are the same `OnIncomingRequests`/`OnOutgoingRequests` events on the screen's own instance. The screen's lists are the explicit inputs of `UsersScreen.UsersWithStatus`.
- **Logging.** Every `Log` call and `printStackTrace`.

## Findings

| source | as written | input that shows it | evidently intended | confidence | as-written member | corrected member |
|---|---|---|---|---|---|---|
| app/src/main/java/com/example/basicchat/screens/UsersScreen.kt:232 | the Reject button hands the other user's uid to `rejectRequest(requestId)`, which updates the request document with that id | "alice" sends "bob" a request, stored as document "r1"; bob presses Reject on alice's card; the update targets document "alice", which does not exist, so the update throws and "r1" stays pending in the store, where both listeners keep delivering it | reject the request the card shows: the first incoming request from that user, found the way `acceptRequest` finds it | not executed | `UsersScreen.RejectAsWrittenKeepsRequest` | `UsersScreen.RejectFromRejectsShownRequest` |
