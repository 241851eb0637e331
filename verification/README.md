# A model of the Secure Distributed Chat

The repository is a federated chat system. Every server owns some users and some chats; a chat may have
participants of any server; every client keeps its own view of the chats its user is in. Who is in a chat is stored
in four places: the participants of the chat at its server, that server's map of chats, the session of each
participant at the participant's server, and each participant's client. One request may cross several servers, runs
through loops of notifications, and may fail half-way.

The model describes this at two granularities, and the storage of accounts beside them.

**One request at a time, with failures** (`Identifiers`, `Security`, `Rooms`, `ClientBackend`, `Servers`, `Worlds`,
`Federation`, `Sessions`, `Clients`, `Requests`, `Accounts`). The objects of the program are classes with mutable maps
(`Servers`, `ClientBackend`); the calls among them are methods with the program's loops and exception handling
(`Federation`, `Sessions`, `Clients`). Each remote call may be delivered, refused, or lost before or after it took
effect. Two things are proved of every run:

* Whatever fails, the federation stays *sound* (`Worlds.Sound`): a chat in a server's map is filed under its own ID and
  has a participant; every participant of the chat's own server has a live session whose entry is that very chat
  object; sessions lead only to chats of their own server or to stand-ins for chats elsewhere. A loop of notifications
  tells exactly those whose own calls arrive, and what ends it is known (`Federation.Network.AppendMessageFrom`). And
  whatever fails, a request that returns without an exception has had its effect: the invited user is in, the message
  went round all participants, the leaver is out everywhere (`Sessions.Invite`, `SendMessage`, `LeaveChat`).
* As long as nothing fails, the federation is one abstract table from chat ID to room (`Rooms`): it changes with every
  request as the table does (`Requests.ServeAll`), and all four places agree with it (`Worlds.Agrees`). What the table
  does over whole runs is proved in `Rooms` from the requests alone: who is online, who is in which chat, and what each
  member has seen. Nothing that a member says is lost to another member, repeated or put in another order, and the key of
  a chat never changes. `Requests.Lifetime` says so of the servers, sessions and clients themselves.

The heap is tied to one value, `Network.world`, that joins all servers and clients; soundness and agreement are
predicates of that value, each clause about one user and one chat.

**Threads that interleave, without call failures** (`Threads`, `ThreadSafety`, `ThreadNames`, `ThreadViews`,
`ThreadHistories`, `ThreadRuns`, `ThreadInvitations`, `ThreadMail`, `ThreadOutcomes`, `ThreadProgress`, `ThreadWalks`,
`ThreadVisits`, `ThreadRaces`, `ThreadRemovals`, `ThreadDeadlocks`). Every operation is a sequence of steps between which
other threads run; the four kinds of mutex are held between the steps that lock and unlock them. Proved of every run: each
message reaches each of those who are in the chat when its thread looks, the sender among them, exactly once, and the
messages of one session arrive in the order they were sent.

Other properties are not true of every run, because chat IDs are used again and some steps go by the ID of a chat that
may be gone: `removeChat`, which acts on an emptiness test made after the participants mutex was released
(`src/server/chat.cpp:140-143`); the client's slot that closes a chat it has left; the client that files a chat it has
opened, over what it shows under that ID; and an invitation, which carries the key of the chat it was meant for. A *rule*
(`Threads.Rule`) asks of one such kind of step, in terms of the state in which it is taken, that it finds what is meant:

| rule | asks |
|---|---|
| `UnlistEmpty` | `removeChat` removes a chat, and nobody is in it |
| `UnlistFiled` | `removeChat` leaves chats alone that their creators' clients have yet to file |
| `FileAlone` | nobody but its user is to be shown in a chat when a client files it |
| `FileQuiet` | nobody else's message is on its way to a client when it files a chat |
| `FilePresent` | the user has not left the chat for good when it is filed |
| `CloseLeft` | a client does not close a chat that its user is in again |
| `HandKey` | an invited user gets the key of the chat it comes into |
| `InviteMeant` | an invited user comes into the chat that the inviting client had in view |

A step keeps the invariant behind a property if and only if it obeys the rule (`NextExact`, `NextNames`, `NextCovers`,
`NextScreens`, `NextUsers`, `NextKeys`, `NextLasts`), so a run keeps it throughout if and only if all its steps obey the
rules of the property (`ThreadRuns`). A theorem assumes only those, and for each of them there is a run without any failed
call in which the theorem does not hold although all other rules are obeyed:

| theorem of `ThreadRuns` | in runs that obey | not without, as in |
|---|---|---|
| `NothingIsDropped` | `UnlistEmpty`, `FileAlone`, `FileQuiet` | `RemovedTwice`, `StaleInvitation`, `LateMessage` |
| `MembersLog`, `QuietRoom` | `UnlistEmpty`, `FileAlone`, `CloseLeft` | `RemovedTwice`, `StaleInvitation`, `ClosedAgain` |
| `QuietOrder`, `SameOrder` | `UnlistEmpty` | `RemovedTwice` |
| `QuietHistory`, `SameChanges` | `UnlistEmpty`, `UnlistFiled` | `RemovedTwice`, `FiledTwice` |
| `SameKey` | `UnlistEmpty`, `UnlistFiled`, `HandKey` | `RemovedTwice`, `FiledTwice`, `StaleKey` |
| `QuietSession`, `ReusedInSessions` | `UnlistEmpty` | `CutOff` |
| `ReusedAtClients` | `UnlistEmpty`, `FilePresent` | `CutOff`, `ShownForEver` |
| `NamesAreNotShared` | `UnlistFiled` | `SharedName` |

`InviteMeant` is sufficient, not necessary: with `UnlistEmpty` and `UnlistFiled` it implies the three rules about filing
and `HandKey` (`MeantInvitations`), so that with `CloseLeft` besides every theorem holds. That is why the runs which do
without one of those four rules do without `InviteMeant` too; all others obey it.

An operation that is over has had its effect or has met with one of the program's reasons to give it up
(`ThreadOutcomes`). That it comes to be over is not true of every run: threads can go on as long as no invitation has to
wait for the session of the user it invites (`ThreadProgress`), and two threads can hold each other up for ever if one
does (`ThreadDeadlocks`).

**Accounts** (`UserDatabase`, `Authentication`, `ContactList`). Three tables with their constraints are proved to be one
record per user name over every run of requests; statements may fail, and then it is known what may be lost. The path of a
contact list is followed from its names through joining, signing, encrypting, storing and back; it comes back unchanged
under a condition that is both necessary and sufficient. `Accounts` follows the log of a chat from the client that leaves
it into its user's record.

## Assumptions

* Hostnames are distinct and hold no `%` marker; every call between servers comes from this program.
* A session is used only between its login and its logout, and a client asks for something in a chat only while it has
  the chat. In the interleaved model users stay logged in.
* RSA decryption undoes encryption and a ciphertext is as long as the modulus (section 7.1 of RFC 8017); verification
  accepts a signature of the same message. The block cipher and the digest are arbitrary functions. The client's record
  of another user bears that user's public key.
* Random keys, vectors and seeds are arbitrary bytes of the size asked for. A notification loop may visit the
  participants in any order, although the program's map is sorted.

Where a comment and the code differ the model follows the code: the comment in `src/server/interserver.cpp:104-105` says
that no exception should normally occur in a leave, but a transport failure of a notification does arrive there; and the
client's `initChat` throws an exception that its interface does not declare (`src/client/backend/session.cpp:36`), so
that the server sees an unknown exception rather than a refusal.

## Model

| member | source | states |
|---|---|---|
| `Identifiers.SplitJoin` | src/shared/sdcHelper.cpp:56-72 | Splitting an ID at its first `@` undoes joining name and host, whatever the host contains. |
| `Identifiers.ValidIDs` | src/shared/sdcHelper.cpp:56-77 | An ID is valid exactly if it is a nonempty `@`-free name, an `@` and a nonempty host; one without an `@` has neither. |
| `Identifiers.NumeralInjective` | src/server/server.cpp:111-118 | Different counters have different decimal numerals. |
| `Identifiers.ChatNameOwner` | src/server/server.cpp:111-124 | A generated chat ID resolves to the host that generated it. |
| `Identifiers.ChatNameInjective` | src/server/server.cpp:111-124 | Generated IDs are equal only for the same counter and the same host, so they are unique across servers. |
| `Identifiers.SomeNameIsFree` | src/server/server.cpp:116-121 | Among one more candidate names than there are chats, one is free: the probe loop ends. |
| `Identifiers.FirstFree` | src/server/server.cpp:116-121 | The index taken is free and every lower one is in use. |
| `Security.OfbInvolution` | src/shared/Security.cpp:251-277 | Output feedback (section 6.4 of NIST SP 800-38A) with the same key and vector undoes itself, for data of any length. |
| `Security.KeystreamBlock` | src/shared/Security.cpp:35-37 | Each whole block of the key stream is the cipher applied to the block before it, the first to the vector. |
| `Security.KeystreamEnd` | src/shared/Security.cpp:35-37 | And what is left over at the end is the beginning of the next output, as section 6.4 of NIST SP 800-38A has it. |
| `Security.OfbStream` | src/shared/Security.cpp:251-277 | What encryption adds to the data is that stream, in blocks of 16 bytes: the output is fed back, whatever the length of the data. |
| `Security.AESRoundTrip` | src/shared/Security.cpp:251-287 | `decryptAES` undoes `encryptAES`: the vector is cut off where it was prepended, for any nonempty key; an empty key is refused both ways. |
| `Security.RSARoundTrip` | src/shared/Security.cpp:43-94 | `decryptRSA` undoes `encryptRSA` for data of any length if the modulus is a whole number of octets, and fails to decrypt otherwise. |
| `Security.RSALayout` | src/shared/Security.cpp:43-59 | What is sent is the sealed symmetric key, as long as the modulus, then the vector, then as many encrypted bytes as the data has. |
| `Security.TooShort` | src/shared/Security.cpp:75-94 | Data shorter than the sealed key does not decrypt; what ends within the vector decrypts to nothing, without an error. |
| `Security.Envelope.ProcessAES` | src/shared/Security.cpp:251-277 | Setting up the shared cipher and cutting or prepending the vector is the encryption or decryption above; an empty key is refused. |
| `Security.Envelope.SealRSA` | src/shared/Security.cpp:43-59 | The sealed symmetric key followed by the data encrypted under it. |
| `Security.Envelope.OpenRSA` | src/shared/Security.cpp:75-94 | The inverse cut, with the error of a key that does not open. |
| `Security.Envelope.SealAndOpen` | src/shared/Security.cpp:43-94 | Seal then open gives the data back, although the one cipher object was set up for something else in between. |
| `Rooms.StepKeeps` | src/server/chat.cpp:57-144 | After every request rooms have members, members are logged in, and of any two members one has seen the last messages that the other has seen. |
| `Rooms.RunKeeps` | src/server/chat.cpp:57-144 | The same for every run of requests. |
| `Rooms.StepOnline` | src/server/server.cpp:81-107 | After a request those are online who enter at a server of the federation or were and do not exit, and nobody else. |
| `Rooms.StepMembers` | src/server/chat.cpp:88-144 | After a request a user is in a room if and only if it opened it or was brought in by a member while online, or was in it and neither quits nor exits. |
| `Rooms.ComesInFresh` | src/server/session.cpp:111-128 | Whoever comes in has seen nothing yet; a room that is opened has an unused ID, its creator alone and the key given; bringing someone in keeps the key. |
| `Rooms.RunOnline` | src/server/server.cpp:81-107 | After any run those are online who entered and have not exited since. |
| `Rooms.RunMembers` | src/server/chat.cpp:88-144 | After any run a user is in a room if and only if a request brought the user in and it has not gone away since. |
| `Rooms.RunLogs` | src/client/backend/chat.cpp:120-155 | And then it has seen exactly what members have said since that request, and the opener's room has the key that came with it. |
| `Rooms.NothingIsLost` | src/client/backend/session.cpp:201-214 | As long as a member does not leave, its log grows by exactly what members say, once each and in order, and the key of the room stays the one its creator made. |
| `Rooms.LeaveOneMore` | src/server/session.cpp:50-60 | Leaving one chat more after a set of chats is leaving the larger set: what the loop of a logout adds up to. |
| `Rooms.LeaveManyEnough` | src/server/session.cpp:50-60 | Leaving the chats one is in is leaving all chats. |
| `ClientBackend.ClientChat.ReceiveMessage` | src/client/backend/chat.cpp:120-155 | A message from a user who is not shown is dropped, one that does not decrypt is not logged, any other is logged as the decrypted bytes. |
| `ClientBackend.ClientChat.RemoveChatParticipant` | src/client/backend/chat.cpp:217-228 | The user is no longer shown; others are. |
| `ClientBackend.Client.InitChat` | src/client/backend/session.cpp:31-96 | A chat opens exactly if the key decrypts, no chat has that ID and all users are found; then it shows the users named and the own one, with that key; otherwise nothing changes. |
| `ClientBackend.Client.Callback` | src/client/backend/session.cpp:98-168 | The three notifications fail exactly for an unknown chat and otherwise change that chat alone, as news of a join, a leave or a message should. |
| `ClientBackend.Client.ChatCreated` | src/client/backend/session.cpp:208-216 | The new chat shows its creator alone, with the generated key, and replaces whatever had the ID. |
| `ClientBackend.Client.ChatLeft` | src/client/backend/session.cpp:473-478 | The chat with that ID is gone from the client. |
| `Servers.Session.AddChat` | src/server/session.cpp:314-321 | An entry is added unless the session has one under that ID. |
| `Servers.Server.AddSession` | src/server/server.cpp:87-96 | One session per user: a second login is refused. |
| `Servers.Server.CreateLocalChat` | src/server/server.cpp:109-127 | The chat gets the least free name, after at most one probe more than there are chats, and has its creator as participant. |
| `Servers.Server.AddChatTo` | src/server/server.cpp:129-143 | The session of a logged-in user gets the chat object that is in the map; any other case changes nothing. |
| `Servers.Server.AddRemoteChatTo` | src/server/server.cpp:145-155 | The session gets a stand-in for the chat unless it has an entry for it, there is no session, or the stand-in finds no proxy for the chat's server; then nothing changes, and each case has its exception. |
| `Servers.Server.RemoveChat` | src/server/server.cpp:168-176 | The chat is gone from the map, or was not there. |
| `Worlds.SoundAddEntry` | src/server/participant.cpp:49-55 | Giving an invited user's session its entry first keeps: every local participant of a listed chat has a live session whose entry is that chat object; listed chats are filed under their ID and have a participant. |
| `Worlds.SoundAddParticipant` | src/server/chat.cpp:104-118 | Becoming a participant after that keeps it. |
| `Worlds.SoundRemoveParticipant` | src/server/chat.cpp:128-143 | Removing a participant, and the chat with its last one, keeps it. |
| `Worlds.SoundDropEntry` | src/server/session.cpp:142-143 | The session may forget the chat once its user is out of it. |
| `Worlds.SoundAddChat` | src/server/session.cpp:116-120 | Creating a chat keeps it. |
| `Worlds.SoundRemoveSession` | src/server/session.cpp:50-62 | A session may go once its user is in no chat of the own server. |
| `Worlds.MembershipAgrees` | src/server/chat.cpp:88-144 | The user's session has the chat exactly if the user is a participant at the owning server, exactly if the user's client shows it, and the client shows the participants. |
| `Worlds.MembersAgree` | src/client/backend/chat.cpp:120-155 | Any two members show the same users, hold the same key, and have seen the same last messages. |
| `Worlds.InviteAgrees` | src/server/chat.cpp:97-119 | An invitation that goes through adds one member to one room of the table, by every local or remote route. |
| `Worlds.SendAgrees` | src/server/chat.cpp:57-86 | A message reaches the log of every member of the room and nobody else. |
| `Worlds.LeaveAgrees` | src/server/chat.cpp:122-144 | A leave removes one member, and the room with its last one; only the leaver's own session and client have yet to hear. |
| `Worlds.FreeIdIsFreeEverywhere` | src/server/server.cpp:116-121 | A chat ID that is free on its server is held by no session and shown by no client anywhere. |
| `Worlds.CreateAgrees` | src/server/session.cpp:111-128 | A new chat is a new room with its creator. |
| `Worlds.LogoutAgrees` | src/server/session.cpp:45-70 | A logout whose leaves succeeded leaves nothing of the user behind. |
| `Federation.Network.CallClient` | src/client/backend/session.cpp:98-168 | The client changes exactly if the call gets through; the call returns exactly if it is delivered to a client that has the chat. |
| `Federation.Network.NotifyAtServer` | src/server/interserver.cpp:131-188 | A notification for a user of another server ends at the client of that user's session; whatever goes wrong becomes the one declared exception. |
| `Federation.Network.Notify` | src/server/participant.cpp:64-134 | Of a remote participant the chat hears only a transport failure, and exactly if the call to its server is lost or there is no such server; of a local one a transport failure exactly if the call to the client is lost, and otherwise, unless the news is of a leave, the declared exception of a client that cannot take it. Whose client hears the news, and when, is fixed for each. |
| `Federation.Network.TellOneOrNone` | src/server/chat.cpp:112-116 | One round of a notification loop adds exactly the participant whose news arrives, whatever became of the others. |
| `Federation.Network.Spread` | src/server/chat.cpp:112-116 | The loop ends well if and only if no participant's own calls break it, and then exactly those were told whose own calls arrived; otherwise it stops at the exception of one of them, and a declared one is about a join that a local participant's client cannot take. |
| `Federation.Network.DeclaredIsLocal` | src/server/participant.cpp:64-134 | A declared exception is never about a remote participant or about a leave. |
| `Federation.Network.OwnUsersKnow` | src/server/participant.cpp:64-69 | When the loop of a join ends well, every participant of the chat's own server was told, at a client that shows the chat. |
| `Federation.Network.AppendMessageFrom` | src/server/chat.cpp:57-86 | Only a transport failure ends the loop: it ends well if and only if no participant's call has one, and then the message is at exactly those participants of the snapshot whose own call arrived, although clients of others refuse. |
| `Federation.Network.FairWeather` | src/server/chat.cpp:57-86 | If every call is delivered, all participants whose clients show the chat are reached, local and remote, and none throws. |
| `Federation.Network.ClientInitChat` | src/server/interserver.cpp:110-129 | At the invited user's server: the session gets the stand-in, then the client the chat; every failure becomes a chat exception. |
| `Federation.Network.Admit` | src/server/chat.cpp:104-110 | If it returns, the invited user's session and client have got the chat, and had not before, with the key that the sealed one opens to; what it may have done otherwise is known, and a session that was reached keeps its entry. |
| `Federation.Network.InviteUser` | src/server/chat.cpp:88-120 | If it returns, session and client have got the chat, then every participant has had its turn to hear of the join, then the user is entered (`Entered`); if it throws, the user is not entered, but its session may keep the chat. With any failures the invariant of listed chats is kept; a participant or a user without a session is refused and nothing changes; without failures the whole effect. |
| `Federation.EnteredIsIn` | src/server/chat.cpp:118 | Whoever has been entered is a participant at the chat's server and has the chat in its session. |
| `Federation.Network.LeaveChat` | src/server/chat.cpp:122-144 | The leaver is out whether or not an exception follows, and an emptied chat always leaves the map; if it returns, all the rest have had their turn to hear of it (`WentRound`). |
| `Federation.Network.InviteAtServer` | src/server/interserver.cpp:51-70 | The same as `InviteUser` for a chat found by its ID; every exception becomes an inter-server exception. |
| `Federation.Network.SendAtServer` | src/server/interserver.cpp:72-91 | A message to a chat found by its ID: if it returns, every participant has had its turn; every exception becomes an inter-server exception. |
| `Federation.Network.LeaveAtServer` | src/server/interserver.cpp:93-108 | The same as `LeaveChat` for a chat found by its ID. |
| `Federation.Network.ChatInvite` | src/server/chat.cpp:159-164 | Through a local chat or a stand-in an invitation means the same if it returns; if it throws, it has had no effect beyond the session's entry or, for a chat elsewhere, its whole effect. |
| `Federation.Network.ChatSend` | src/server/chat.cpp:153-157 | Through a local chat or a stand-in a message means the same: if it returns, it went round all participants. |
| `Federation.Network.ChatLeave` | src/server/chat.cpp:166-170 | If it returns, the user was in the chat and is out of it, through a local chat or a stand-in, and the rest have had their turn to hear; on the own server the user is out even if it throws. A lost request is a transport failure. |
| `Sessions.Invite` | src/server/session.cpp:156-185 | An invitation of oneself, of a member, of a user without a session or into an unknown chat is refused and changes nothing on any server; if it returns, the user is in; which exceptions can come of a local and of a remote chat is fixed. |
| `Sessions.Declare` | src/server/session.cpp:144-153 | The two declared exceptions pass; any other becomes the one of its own for a chat of the user's server, and the inter-server exception for a chat elsewhere. |
| `Sessions.SendMessage` | src/server/session.cpp:187-210 | An unknown chat is refused; if it returns, the message went round all participants; without failures, all get it. |
| `Sessions.InitChat` | src/server/session.cpp:111-128 | The new chat is under an ID that no chat has, belongs to the user's server, and the session's entry is that chat. |
| `Sessions.LeaveChat` | src/server/session.cpp:130-154 | If it returns, the user is out of the chat wherever that is, all the rest have had their turn to hear of it, and the session has forgotten the chat; if it throws, no session has changed, and on the own server the user is out all the same. |
| `Sessions.Logout` | src/server/session.cpp:45-70 | Whichever leaves fail, the user ends without a session and in no chat of the own server, and all others stay where they were; without failures, the user is in no chat at all. |
| `Sessions.Login` | src/server/authentication.cpp:79-96 | A user without a session gets one, with a new client; otherwise nothing changes. |
| `Clients.RunInitChat` | src/client/backend/session.cpp:201-232 | Without failures, exactly a new room with the generated key, shown by its creator. |
| `Clients.RunInvite` | src/client/backend/chat.cpp:54-79 | Without failures, exactly the invitation of the table; it succeeds if and only if the table allows it, and a refused one changes nothing. The invited client holds the room's key. With any failures, success means that the user is in. |
| `Clients.RunSend` | src/client/backend/chat.cpp:87-118 | Without failures, every member's log grows by exactly the bytes that were sent. With any failures, success means that the message, which opens to the text, went round all participants. |
| `Clients.RunLeaveChat` | src/client/backend/chat.cpp:163-208 | If the log was saved, without failures exactly the leave of the table; if not, the servers never hear of it. Either way the client no longer shows the chat. With any failures, success means that the user is out and its session has forgotten the chat. |
| `Clients.RunLogout` | src/client/backend/session.cpp:234-266 | Without failures, exactly the logout of the table, although the client leaves its chats itself first. |
| `Clients.RunLogin` | src/client/backend/session.cpp:488-518 | Without failures, a login succeeds if and only if the user is not logged in. |
| `Requests.ServeAll` | src/server/session.cpp:45-210 | For any servers, users and sequence of requests: without failures the federation is what the abstract table is after the same requests (whose steps `Rooms.StepOnline`, `Rooms.StepMembers` and `Rooms.NothingIsLost` describe); with any failures the invariant holds. |
| `Requests.Lifetime` | src/server/server.cpp:35-65 | From empty servers on, without failures: those have sessions who entered and have not exited since; the chat's server, the user's session and the user's client have the user in a chat if and only if a request brought it in and it has not gone away since; and the client shows exactly what members have said since then, in the same order as everyone else. |
| `Authentication.Authority.SaltHashPassword` | src/server/authentication.cpp:46-56 | The digest of the password followed by a thousand copies of the salt. |
| `Authentication.RepeatedIs` | src/server/authentication.cpp:50-52 | Each of the thousand pieces is the salt, and there is nothing else. |
| `Authentication.Authority.RegisterUser` | src/server/authentication.cpp:111-133 | Only users of this host are registered, never over an existing name, with their public key; afterwards exactly those passwords are accepted that have the digest of the registered one, and nobody else's account changes. |
| `Authentication.Authority.Verify` | src/server/authentication.cpp:70-79 | Whoever passes matches the account's digest and is a user of this host; if the database works, whoever matches passes. |
| `Accounts.Login` | src/server/authentication.cpp:65-109 | Whoever gets a session gave the password of an account of this host. |
| `Accounts.DeleteUser` | src/server/session.cpp:212-231 | Only the own account; if it returns, the account, the session and all memberships on the own server are gone. |
| `Accounts.RunLeaveChat` | src/client/backend/chat.cpp:163-208 | The log as the client shows it, sealed under its user's keys, is in the user's record under the chat's ID and the time before the server hears of the leave, and with proper keys opens to that log again, with the user's signature; if it is not saved, nothing changes but that the client no longer shows the chat. |
| `ContactList.ContainerOpens` | src/client/backend/chat.cpp:178-185 | What was sealed in a container opens to the same bytes, with the signature of its user. |
| `UserDatabase.Database.DeleteUserNamed` | misc/deploy.sql:5-28 | A user row that is referred to is not deleted; unique and foreign keys hold. |
| `UserDatabase.Database.InsertUser` | misc/deploy.sql:5-11 | A user name is inserted once; serial numbers are never given out twice. |
| `UserDatabase.Database.InsertLog` | misc/deploy.sql:13-21 | A log needs its user and a new key. |
| `UserDatabase.Database.InsertContacts` | misc/deploy.sql:23-28 | A contact list needs its user, and there is one per user. |
| `UserDatabase.UserDbProxy.SaveContactList` | src/server/userdbproxy.cpp:74-102 | The user's record has the new list and nothing else changes in any record; if a statement fails, at most the user's own old list is gone. |
| `UserDatabase.UserDbProxy.RetrieveContactList` | src/server/userdbproxy.cpp:104-136 | The list that is kept, or an empty container. |
| `UserDatabase.UserDbProxy.SaveLog` | src/server/userdbproxy.cpp:138-171 | The user's record has the log under its key and nothing else changes in any record; if a statement fails, at most the log under that key is gone. |
| `UserDatabase.UserDbProxy.RetrieveLoglist` | src/server/userdbproxy.cpp:173-202 | Exactly the keys of the logs that are kept, each once. |
| `UserDatabase.UserDbProxy.RetrieveLog` | src/server/userdbproxy.cpp:204-237 | The log that is kept under that key, or an error if there is none. |
| `UserDatabase.UserDbProxy.DeleteUser` | src/server/userdbproxy.cpp:254-289 | The user's record is gone and all others stay; if a statement fails, the record stays with or without its logs and then its list, and all others stay. |
| `UserDatabase.CreateUser` | src/server/userdbproxy.cpp:291-327 | A new name gets a record without contacts and logs; a name that is taken is refused. |
| `UserDatabase.GetProxy` | src/server/userdbproxy.cpp:329-353 | A proxy is made only for users that are there, with their data; if the database works, for all of them. |
| `UserDatabase.LogSaved` | src/server/userdbproxy.cpp:146-164 | Deleting and inserting one row is one update of the user's map of logs. |
| `UserDatabase.UserDeleted` | src/server/userdbproxy.cpp:263-288 | Three deletions are the removal of one record. |
| `UserDatabase.Perform` | src/server/session.cpp:233-296 | Each request, with a proxy of its own, does to the records what the map does if it succeeds, and at most loses what it is about if it fails; if the statements succeed, it succeeds if and only if the name is there or, to register, is not. |
| `UserDatabase.PerformAll` | src/server/session.cpp:233-296 | Over any sequence of requests each does that to what the one before has left; if all statements succeed, the tables are what the map of records is after the same requests. |
| `UserDatabase.KeepsWhatWasLastStored` | src/server/userdbproxy.cpp:74-327 | After any requests, what is kept is exactly what was stored last since its owner registered: contents of a deleted user never come back with the name. |
| `UserDatabase.KeepsWhoRegistered` | src/server/userdbproxy.cpp:291-353 | After any requests a name has a record if and only if it registered and was not deleted since, with the key, digest and salt that it registered with. |
| `UserDatabase.KeepsNothingElse` | src/server/userdbproxy.cpp:74-327 | Whichever statements fail, a record holds nothing that was not stored under that name and in that place. |
| `ContactList.Join` | src/client/backend/session.cpp:420-424 | The names joined by newlines. |
| `ContactList.SplitLines` | src/client/backend/session.cpp:388-391 | Splitting the joined text gives the names back, for any nonempty list of newline-free names. |
| `ContactList.ReadsBack` | src/client/backend/session.cpp:388-424 | Reading what was joined gives the list back if and only if no name holds a newline or a NUL and the list is not the one holding a single empty name. |
| `ContactList.ContactsComeBack` | src/client/backend/session.cpp:369-430 | The same through signing, encrypting, decrypting and verifying. |
| `ContactList.RunSaveContactList` | src/client/backend/session.cpp:411-440 | The user's record holds the sealed text of the list. |
| `ContactList.RunRetrieveContactList` | src/client/backend/session.cpp:369-409 | What the kept container opens to; without a container, no names; and no names unless the user's own signature is on the text that they are read from. |
| `ContactList.SaveAndRetrieve` | src/client/backend/session.cpp:369-440 | End to end through the database, a saved list is retrieved unchanged under exactly that condition. |
| `ThreadSafety.InvInitial` | src/server/server.cpp:77-79 | The invariant of rooms, maps, sessions and threads (`Inv`) holds when nobody has done anything. |
| `ThreadSafety.MovedExclusive` | src/server/chat.cpp:97-140 | A thread that takes only free mutexes never shares one (`ExclusiveAt`). |
| `ThreadSafety.LeaverHolds` | src/server/session.cpp:137-143 | While a thread holds a session's mutex no other takes that user out of a chat: a sender cannot leave during its own message. |
| `ThreadSafety.FreeIsIdle` | src/server/chat.cpp:97-140 | Nobody is being told of a join or leave while the participants mutex is free. |
| `ThreadSafety.FindsOwn` | src/server/session.cpp:137-143 | A session that is not taking its user out leads only to a chat that the user is in or is being invited into. |
| `ThreadSafety.EnterInviteeKeeps` | src/server/server.cpp:129-155 | `Inv` is kept; in it `EntryAt`: the entry that the invited user's session gets is for the very chat it is invited into. |
| `ThreadSafety.CallInviteeKeeps` | src/client/backend/session.cpp:43-79 | `Inv` is kept; in it `BusyAt`: the thread that invites holds the participants mutex until everyone has been told. |
| `ThreadSafety.PartKeeps` | src/server/chat.cpp:128-134 | `Inv` is kept; in it `OutAt`: until its session has forgotten the chat, a user who is out does not come back in. |
| `ThreadSafety.TellKeeps` | src/server/chat.cpp:112-138 | `Inv` is kept; in it `BusyAt`: those still to be told are members. |
| `ThreadSafety.EndTellingKeeps` | src/server/chat.cpp:118-140 | `Inv` is kept; in it `KeptAt`: a chat with participants is the one that its server's map has under its ID. |
| `ThreadSafety.UnlistExact` | src/server/server.cpp:168-176 | Removing what the map has under an ID keeps `Inv` if and only if the map has a chat there and nobody is in it. |
| `ThreadSafety.ForgetKeeps` | src/server/session.cpp:143 | `Inv` is kept; in it `MemberAt`: every participant's session leads to the chat. |
| `ThreadSafety.ListChatKeeps` | src/server/server.cpp:114-126 | `Inv` is kept; in it `ListedAt`: a chat is in the map under its own ID. |
| `ThreadSafety.OwnChatKeeps` | src/server/session.cpp:119-120 | `Inv` is kept; in it `MemberAt` for the creator. |
| `ThreadSafety.NextExact` | src/server/chat.cpp:57-144 | Every step of every thread keeps `Inv` if and only if it obeys the rule `UnlistEmpty`. |
| `ThreadNames.NextNames` | src/server/server.cpp:114-124 | Every step keeps it that a chat which is being created is the one in the map under its ID, if and only if it obeys `UnlistFiled`. |
| `ThreadViews.SnapshotScreens` | src/server/chat.cpp:61-63 | Everyone in the snapshot who has the chat shows the sender (`FanAt`). |
| `ThreadViews.DeliverScreens` | src/server/chat.cpp:69-80 | A delivery finds the sender shown, or the chat gone: nothing is dropped. |
| `ThreadViews.CallInviteeScreens` | src/client/backend/session.cpp:43-79 | The invited user's client shows the senders of all messages that are under way to it (`FanInv`). |
| `ThreadViews.TellScreens` | src/server/chat.cpp:112-138 | Telling a client of a leave does not take away the sender of a message under way. |
| `ThreadViews.FileChatCovers` | src/client/backend/session.cpp:216-219 | When a client files the chat it has opened, everyone whom it must show stays shown if and only if nobody but its user is to be shown. |
| `ThreadViews.FileChatScreens` | src/client/backend/session.cpp:216-219 | When a client files the chat it has opened, every sender of a message under way to it stays shown if and only if no other user's message is under way. |
| `ThreadViews.FilingLoses` | src/client/backend/chat.cpp:120-129 | Otherwise the message that is under way, or the next one to go out, is dropped. |
| `ThreadViews.NextCovers` | src/server/chat.cpp:97-140 | Every step keeps it that each client shows at least whom it must (`CoverInv`), if and only if it obeys `FileAlone`. |
| `ThreadViews.NextScreens` | src/client/backend/chat.cpp:120-129 | Every step keeps it that clients show the senders of messages that are under way to them, if and only if it obeys `FileQuiet`. |
| `ThreadViews.NextUsers` | src/server/chat.cpp:97-140 | Every step keeps it that each member's client shows the chat with exactly those users it has been told of, if and only if it obeys `CloseLeft` (given `FileAlone`). |
| `ThreadViews.NextKeys` | src/client/backend/chat.cpp:54-65 | Every step keeps it that members have the key that the creator made, if and only if it obeys `HandKey`. |
| `ThreadViews.NextLasts` | src/client/backend/session.cpp:473-478 | Every step keeps it that a client shows a chat only while its user is in it or a thread is on its way to close it, if and only if it obeys `FilePresent` (given `UnlistEmpty`). |
| `ThreadHistories.NextOrder` | src/client/backend/chat.cpp:210-228 | Every step keeps it that what a client has seen of joins and leaves is the last that the chat has told it. |
| `ThreadHistories.NextSeen` | src/client/backend/chat.cpp:210-228 | Every step keeps it that this is all of them since the user's last join or, for the creator, since the chat was filed, and that none of the user's own is among them (given `NameInv`). |
| `ThreadRuns.RunPlaced` | src/server/chat.cpp:57-144 | `Inv` holds in every state of a run if and only if every step of the run obeys `UnlistEmpty`. |
| `ThreadRuns.RunNamed` | src/server/server.cpp:114-124 | The same for names and `UnlistFiled`. |
| `ThreadRuns.RunScreened` | src/client/backend/chat.cpp:120-129 | The same for messages under way, with `UnlistEmpty`, `FileAlone` and `FileQuiet`. |
| `ThreadRuns.RunCurrent` | src/server/chat.cpp:97-140 | The same for who is shown, with `UnlistEmpty`, `FileAlone` and `CloseLeft`. |
| `ThreadRuns.RunOrdered` | src/client/backend/chat.cpp:210-228 | The same for the order of joins and leaves, with `UnlistEmpty`. |
| `ThreadRuns.RunTold` | src/client/backend/chat.cpp:210-228 | The same for all joins and leaves since a user's join, with `UnlistEmpty` and `UnlistFiled`. |
| `ThreadRuns.RunKeyed` | src/client/backend/chat.cpp:54-65 | The same for keys, with `UnlistEmpty`, `UnlistFiled` and `HandKey`. |
| `ThreadRuns.RunLasting` | src/client/backend/session.cpp:473-478 | The same for how long a chat is shown, with `UnlistEmpty` and `FilePresent`. |
| `ThreadRuns.NothingIsDropped` | src/client/backend/chat.cpp:120-129 | In every run that obeys `UnlistEmpty`, `FileAlone` and `FileQuiet` no client takes the branch for a message from a user who is not in the chat. |
| `ThreadRuns.MembersLog` | src/client/backend/chat.cpp:131-144 | In every run that obeys `UnlistEmpty`, `FileAlone` and `CloseLeft` a message that reaches a user who is in the chat is logged. |
| `ThreadRuns.QuietRoom` | src/server/chat.cpp:97-140 | Under the same three rules, whenever the participants mutex is free every member's client shows exactly the participants. |
| `ThreadRuns.QuietOrder` | src/server/chat.cpp:97-140 | In every run that obeys `UnlistEmpty`, when the participants mutex is free what a member's client has seen of joins and leaves is the last that happened in the chat, in order. |
| `ThreadRuns.SameOrder` | src/client/backend/chat.cpp:210-228 | So of any two members one has seen the last that the other has seen, in the same order. |
| `ThreadRuns.GotOnce` | src/client/backend/session.cpp:43-79 | A chat's history determines when a member got it: at its last join or, for the creator, at the filing if that is later. |
| `ThreadRuns.QuietHistory` | src/server/chat.cpp:97-140 | In every run that obeys `UnlistEmpty` and `UnlistFiled`, a member's client that shows the chat has then seen exactly the joins and leaves since the user got the chat (`GotChat`), in order. |
| `ThreadRuns.SameChanges` | src/client/backend/chat.cpp:210-228 | So any two members have both seen, in the same order, all joins and leaves since the later of them got the chat. |
| `ThreadRuns.SameKey` | src/client/backend/chat.cpp:54-65 | In every run that obeys `UnlistEmpty`, `UnlistFiled` and `HandKey`, every member's client has the key that the creator's client made. |
| `ThreadRuns.QuietSession` | src/server/session.cpp:130-143 | In every run that obeys `UnlistEmpty`, when the mutexes are free a session leads to a chat exactly if its user is a participant. |
| `ThreadRuns.NamesAreNotShared` | src/server/server.cpp:114-124 | In every run that obeys `UnlistFiled` two threads that are creating chats never have the same ID. |
| `ThreadRuns.ReusedInSessions` | src/server/server.cpp:116-121 | In every run that obeys `UnlistEmpty`, when an ID is given out again only a session that is just leaving the earlier chat still has it. |
| `ThreadRuns.ReusedAtClients` | src/server/server.cpp:116-121 | In every run that obeys `UnlistEmpty` and `FilePresent`, a client that still shows an ID which is given out again has a thread of its user under way that leaves and will close it. |
| `ThreadInvitations.NextAlone` | src/client/backend/session.cpp:208-219 | A step that obeys `UnlistFiled` and `InviteMeant` keeps it that nobody but its creator is in a chat which has yet to be filed, and that the creator is in it or on its way out. |
| `ThreadInvitations.MeantInvitations` | src/client/backend/chat.cpp:54-65 | In every run that obeys `UnlistEmpty`, `UnlistFiled` and `InviteMeant` the rules about filing and keys are obeyed too, and every invitation carries the key of the room that the inviting client had in view. |
| `ThreadRemovals.CutOff` | src/server/chat.cpp:140-143 | A run without failed calls that obeys every rule but `UnlistEmpty`: a session leads to a chat that the map does not have, and still has, like a client, an ID that is given out again, with nobody leaving. |
| `ThreadRemovals.LeftBehind` | src/server/server.cpp:168-176 | Another: two users leave at once, the second finds nothing to remove, and the exception keeps its session from forgetting the chat. |
| `ThreadRemovals.RemovedTwice` | src/server/chat.cpp:140-143 | Another: a message is dropped and not logged, and a member's client shows other users and another key than the chat's, and joins and leaves that were not in it. |
| `ThreadRemovals.SharedName` | src/server/server.cpp:114-124 | A run that obeys every rule but `UnlistFiled`, and two chats under creation have one ID. |
| `ThreadRemovals.FiledTwice` | src/client/backend/session.cpp:208-219 | Another: a client lacks joins and leaves of a chat that its user opened, and has another key. |
| `ThreadRaces.StaleInvitation` | src/client/backend/session.cpp:208-217 | A run that obeys all rules but `FileAlone` and `InviteMeant`: a message is dropped and not logged, and a member's client does not show the participants. |
| `ThreadRaces.LateMessage` | src/client/backend/session.cpp:208-217 | The same for `FileQuiet`: a message is dropped although nobody but its user was to be shown when the client filed the chat. |
| `ThreadRaces.ShownForEver` | src/client/backend/session.cpp:216-219 | The same for `FilePresent`: an ID is given out that a client shows and no thread will close. |
| `ThreadRaces.StaleKey` | src/client/backend/chat.cpp:54-65 | The same for `HandKey`: an invited user has another key than the chat's. |
| `ThreadRaces.ClosedAgain` | src/client/backend/session.cpp:473-478 | A run that obeys every rule but `CloseLeft`: a client shows nothing of a chat that its user is in, and does not log a message there. |
| `ThreadMail.NextMail` | src/server/session.cpp:194-199 | Every step keeps the order of arrival, whatever IDs lead to. |
| `ThreadMail.RunMail` | src/server/session.cpp:194-199 | So does every run. |
| `ThreadMail.ExactlyOnce` | src/server/chat.cpp:61-80 | In every run a send that has returned has reached each participant of its snapshot exactly once, and nobody else. |
| `ThreadMail.MembersGetIt` | src/server/chat.cpp:57-86 | In every run a send that has returned has reached exactly those who were members of the room when its thread looked, the sender among them, each exactly once and nobody else. |
| `ThreadRuns.SenderGetsIt` | src/server/chat.cpp:61-72 | In every run that obeys `UnlistEmpty` up to that look the sender itself gets the message exactly once, whether its session has the chat itself or a stand-in. |
| `ThreadMail.InOrder` | src/server/session.cpp:194-199 | In every run two messages of one session arrive at any common recipient in the order in which their threads got the session's mutex, in local and remote chats. |
| `ThreadOutcomes.Outcome` | src/server/session.cpp:130-210 | In every run that obeys `UnlistEmpty` an invitation, a message or a leave that is over has had its effect, or has met with one of the reasons for which the program gives it up (`EndsInvite`, `EndsSend`, `EndsLeave`). |
| `ThreadVisits.Visit` | src/server/chat.cpp:57-144 | For users of any servers and under any rules there is a run in which one opens a chat and invites the other, the guest's message is logged by both, and the guest leaves. |
| `ThreadProgress.GoesOn` | src/server/chat.cpp:57-144 | In every run that obeys `UnlistEmpty` a thread can take a step if and only if it has not ended, nobody holds the mutex that it needs next, and the client that it calls next takes the call. |
| `ThreadProgress.SomeoneGoesOn` | src/server/server.cpp:129-155 | In every such run, as long as a thread has not ended some thread can go on, unless a client refuses a call or an invitation waits for the session of the user it invites: that is the only mutex that is taken out of turn. |
| `ThreadDeadlocks.StuckForEver` | src/server/server.cpp:129-143 | However a run goes on, an invitation and a leave that hold each other's mutex never take another step, and nobody of that server opens a chat any more. |
| `ThreadDeadlocks.Deadlock` | src/server/chat.cpp:140-143 | There is such a run, under any rules and without a failed call: a user empties a chat of its own while another of the same server invites it. |

## Left out

- The graphical client, logging, settings, command line, build and start scripts: presentation and input/output.
- Transport, certificates, proxies and their identities, thread pools and timeouts: a call returns or throws.
- The primitives themselves (RSA, AES, SHA-1, PEM files) and whether a backend supports them: parameters.
- The SQL engine and connections: a statement is a filter or an insertion that keeps the constraints, or fails. Serial
  numbers are unbounded, not 32 bits wide.
- Copying bytes between the program's container types: all are one sequence type. Names and messages are sequences of
  8-bit characters; UTF-8 is not modelled.
- Counters beyond 2^31 chats on one server.
- Timestamps of messages, texts of exceptions, and the cache of users at the client.
- `retrieveUser` on both sides: it reads an account and changes nothing.
- How a log is laid out as bytes, and reading it back at the client: the layout is a parameter of `Accounts.RunLeaveChat`.
- `Threads.Next`: logging in and out, and call failures, are in the other model only; reading the map of sessions to
  find a callback is not a step of its own, because nobody changes that map there. A callback that would throw is not a
  step, except for a message to a client that no longer has the chat.
- `ThreadProgress.SomeoneGoesOn`: does not say that every thread comes to its end, because that needs a fair scheduler.
- An order of messages of different senders under interleaving: the participants mutex is released before a message
  goes out.
- Session entries without a participant after a failed call: an invitation that fails at the client leaves one behind,
  so soundness says nothing of the kind.
- A select that fails while a proxy is made ends in an assertion of the program (`src/server/userdbproxy.cpp:345`); in
  the model it is the exception of a connection that cannot be opened.
- A chat object that is gone from its server's map but still held by a session is kept in the model as it is in the
  program; dead sessions are not.
