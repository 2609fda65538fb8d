# Sockchat, modelled and proved

Sockchat is a chat server. Users log in over websockets, create, join and leave channels and send messages that are
indexed before they are broadcast. A profile service with a cache in front of its table decides logins, and a report
service counts a user's messages with a search engine. This project models the server's logic and proves what its
parts promise together, for every input and every interleaving of its goroutines.

## How it is laid out

| files | what they hold |
|---|---|
| `Collections`, `Wrappers` | options, iteration orders of maps, sums, results |
| `StoreSpec`, `RequestSpec` | the channel store as one atomic object: the answer and the effect of each call, and of each request a user can make |
| `StoreMachine`, `StoreProofs`, `StoreFrame` | the channel store with one step per critical section; it is linearizable to `StoreSpec` |
| `Protocol`, `ChatSystem` | the gate in front of the actor, and the whole live chat as one state machine: sessions, pool, one actor per handler, store calls, spawned goroutines |
| `ChatProtocol`, `ChatMembership`, `ChatInvariant`, `ChatLogs`, `ChatAnswering` | its invariants: pool and requests; store calls and members; that every step keeps them; the logs; the answers under way |
| `ChatTheorems`, `ChatHistory`, `ChatSessions`, `ChatAnswers`, `ChatBroadcasts`, `DrainCosts`, `Drain` | what follows for every reachable state and every run: pool, sessions and members; who is let in; which answer a request gets; who is written to; that the work drains |
| `FinePool`, `FinePoolProofs` | `AddConnection` and `RemoveConnection` taken apart: exactly which steps break the pool |
| `LockMachine`, `LockProofs` | the server down to single lock operations, rendezvous and wait groups; it never deadlocks |
| `Sockchat`, `UserPool`, `Messaging` | the same store, handlers, pool and session loop as classes with sequential contracts |
| `ProfileCache`, `ProfileProofs`, `UserProfile` | the profile cache under any interleaving, and the profile service as a class that refines it |
| `Reports`, `ReportProofs` | the activity report: options to query, a reference evaluator, decoding; and what a report means |

`StoreSpec.Result` and `StoreSpec.After` tie the two views of the channel store together: the classes are proved
equal to them call by call, the concurrent machine is proved linearizable to them. What a user gets is stated again without
them, by action and on the channels themselves: `RequestSpec.Fulfils` and `Sockchat.Notifies` for the classes,
`ChatAnswers.Deserved` for the live chat.

A step of `ChatSystem` is one critical section, one rendezvous on an unbuffered channel or one turn of a spawned
goroutine. What the outside decides is an action's parameter: the messages a client sends, whether credentials are
accepted, whether the index takes a message, in which order a `range` over a map runs. Fields marked auxiliary
record the past for the theorems; no step reads them.

## What turned out

* **The pool can go wrong when sessions of one nick come and go at once.** Adding and removing a connection both release
  the pool lock between looking and changing (`user_connections.go:35-44`, `user_connections.go:54-73`). The theorems
  about pool and membership take each of them as one step. `FinePoolProofs` says what that assumption is worth. Over a
  whole run the pool stays exact if and only if each of four kinds of steps still finds true what it looked up earlier
  (`FinePoolProofs.RunIsExactIffHarmless`). It does if no step of a session falls between the steps of another session
  of the same nick, as a lock for each nick would ensure; sessions of other nicks do no harm
  (`FinePoolProofs.GuardedRunsAreExact`). The code by itself does not ensure it: a session can be served with no handler
  to be found for it (`FinePoolProofs.HandlerLost`), and a handler can stay in the pool after all its sessions are gone
  (`FinePoolProofs.HandlerOrphaned`).
* **A cached description can be stale.** After an edit every new lookup sees the new description until the next edit of
  the nick, if and only if no fill was under way at the invalidation with another row (`ProfileProofs.EditIsSeen`,
  `ProfileProofs.StaleProfile`). Password hashes never change, so authentication is not affected
  (`ProfileProofs.AuthAgreesWithTable`).
* **The concurrent store is linearizable only with helping.** A leave that has passed its membership check may lose
  the removal to a disconnect and still answer success. It takes effect just before that removal, which is then
  the one that finds nothing to do.
* **A report can be silently partial.** With more than fifty channels it names the fifty busiest and does not say so;
  `ReportProofs.ReportMeaning` states when it is complete.

## Model

| member | source | states |
|---|---|---|
| `Protocol.GateMatchesActor` | services/messaging.go:113-122 | the gate lets a message through exactly if its action has a branch in the actor and its payload decodes, and what it passes on is the payload of that action, field by field, with the type that branch asserts |
| `Protocol.DispatchMeaning` | user_connections.go:103-130 | create, join, leave and send_message each lead to their own branch; any other action is dropped, and a payload of the wrong type would crash the actor |
| `StoreProofs.StoreIsLinearizable` | channel_store.go:20-141 | in every interleaving in which a user's joins and own leaves are serialised, the calls take effect one at a time between invocation and return, with the atomic store's answers, and the maps hold what that order says |
| `StoreProofs.JoinCheckIsStable` | channel_store.go:46-57 | when a join is about to add its user, that user is still absent, whatever ran after the check |
| `StoreProofs.MembershipAccounting` | channel_store.go:46-79 | in any legal history joins minus leaves minus removals of a user in a channel is 1 if the user is a member and 0 otherwise |
| `StoreProofs.CreatedOnce` | channel_store.go:33-44 | of all creations of a name at most one succeeds, and none of the empty name |
| `StoreProofs.ChannelObjectsStay` | channel_store.go:20-44 | a channel object, once the map leads to it, is the one the map leads to in every later state |
| `StoreFrame.AdvanceFrame` | channel_store.go:46-149 | what one critical section changes, and that it changes nothing for any other user, call, name or channel |
| `ChatInvariant.ApplyKeeps` | user_connections.go:101-131 | every step of the chat keeps the invariant that ties sessions, pool, actors, store calls and members together |
| `ChatInvariant.RunKeeps` | services/messaging.go:33-111 | every state of every run has that invariant |
| `ChatInvariant.LastIsIdle` | user_connections.go:64-72 | when the pool drops a handler its actor is idle and no session has a request for it |
| `ChatTheorems.PoolIsLiveConnections` | user_connections.go:28-73 | a nick has a handler exactly while it has a live connection, the handler has exactly those connections, different nicks share none, and every live connection is recorded under its nick |
| `ChatTheorems.SessionsMatchPool` | services/messaging.go:33-111 | a session registers at most once and unregisters exactly once if it registered, under its own nick; its handler contains its connection; "handler not found" and "could not drop connection" never happen |
| `ChatTheorems.OneSessionIsOwed` | user_connections.go:101-137 | an actor is busy exactly if a session is owed its answer, and then exactly one is; no actor panics |
| `ChatTheorems.RepliesDoNotCross` | user_connections.go:133-137 | every answer reaches the session that asked, no request is answered twice, and one not answered is still waited for |
| `ChatAnswers.RepliesAreDeserved` | user_connections.go:101-137 | every answer received in any run, and its error: on the channels at the point where the request's own store call took effect, a create succeeds exactly if the name is good and new, a join if the channel is there without the user, a leave if the user is a member; a message succeeds exactly if it was indexed, and then with the text sent, in the channel named; and the answer went to the session that asked |
| `ChatAnswers.AnswersAreDeserved` | user_connections.go:101-130 | the same of every answer an actor is about to give |
| `ChatSessions.ReceiveMeaning` | services/messaging.go:60-95 | before a login only a login with the right password has an effect; after it only what parses, and what is asked of the handler is what the message said |
| `ChatSessions.AttachIsLogin` | services/messaging.go:60-86 | a step that registers a connection is the reading of a login of that nick with the right password by a session that was not logged in |
| `ChatSessions.OnlyLoginsAttach` | services/messaging.go:60-86 | whoever is registered at any time of any run has sent such a login |
| `ChatSessions.RendezvousMeaning` | user_connections.go:103-123 | which store call the actor begins each request with, and that it makes it for its own user |
| `ChatTheorems.ForwardedIsHandled` | services/messaging.go:88-104 | a request about to reach an actor has an action the actor handles and the payload type it asserts, and the actor then holds that request |
| `ChatTheorems.GoneIsNoMember` | user_connections.go:64-72 | a dropped handler whose removals have finished is in no channel, channels created after the snapshot included |
| `ChatTheorems.GoneForever` | channel_store.go:73-79 | from then on it stays out of the pool and of all channels, idle and unreachable, for the rest of any run |
| `ChatTheorems.EvictionsSpareTheLiving` | channel_store.go:73-79 | removals of a dropped handler never change the memberships of a handler in the pool, one of the same nick included |
| `ChatTheorems.EvictionsTakeEffect` | channel_store.go:59-79 | a removal that finds its user a member removes it itself, and there is one removal per channel and handler |
| `ChatTheorems.ChatStoreIsLinearizable` | channel_store.go:46-79 | all calls the chat makes on the store are linearizable, and in every state joins minus leaves minus removals is the membership |
| `ChatTheorems.ChangesAreAnnouncedOnce` | channel_store.go:54-69 | each effective join, leave or removal that has returned has broadcast its event exactly once, and no other call has |
| `ChatTheorems.OwnBroadcasts` | channel_store.go:54-68 | a joiner is among the recipients of its own joined event; a leaver or dropped handler is not among those of its left event |
| `ChatTheorems.SendersAreMembers` | user_connections.go:122-128 | the author of an indexed message is a member of the channel at the index step itself, and the object it will be broadcast in is the one in the map |
| `ChatTheorems.PersistBeforeDeliver` | channel_store.go:95-108 | indexed messages and message broadcasts, done or pending, are one to one, and no message is written that is not indexed |
| `ChatTheorems.CreateAnswer` | user_connections.go:105-111 | a create request is about to be answered success exactly if its name was good and new at the point of the store's history where the creation took effect, and then its creator is a member |
| `ChatHistory.CreateReplied` | user_connections.go:105-111 | the same of every answer to a create request that a session has received in any run |
| `ChatHistory.ChannelObjectsStay` | channel_store.go:20-44 | in any run of the chat a name leads to the same channel object ever after |
| `ChatHistory.DeliveriesFindChannel` | channel_store.go:95-108 | a message broadcast, however long it has been waiting, goes to the channel object that the map has under its name |
| `ChatTheorems.ChannelsAreCreatedOnce` | channel_store.go:33-44 | over any run of the chat a name is created at most once and no channel has the empty name |
| `ChatBroadcasts.SpawnsAreExact` | channel_store.go:143-149 | every step spawns one write per member there is at that step, one socket write per connection its handler has then, one delivery per indexed message, and nothing else |
| `ChatBroadcasts.ChangesAreTold` | user_connections.go:105-121 | a join that tells writes the joined event, a leave the left event, once to each member there is then, and the leaver hears that it left |
| `ChatBroadcasts.RemovalsAreTold` | channel_store.go:59-79 | a removal that tells writes the left event of the dropped handler's nick once to each member that remains |
| `ChatBroadcasts.DeliveriesReachAll` | channel_store.go:143-149 | a delivery writes its message once to each member there is when it runs, a write once to each connection its handler has then |
| `ChatBroadcasts.OthersSpawnNothing` | user_connections.go:101-151 | a step that is none of these, nor the indexing of a message, spawns nothing |
| `Drain.StepIsPaid` | user_connections.go:101-151 | every step that is not input strictly decreases the weight of the work left, within limits fixed at the start |
| `Drain.StuckIsQuiescent` | user_connections.go:101-151 | the chat stops only when all sessions wait for input or are closed, all actors are idle and all goroutines are done |
| `Drain.AlwaysDrains` | channel_store.go:73-149 | from any reachable state at most that weight of steps happens without input, however scheduled; where it stops every request is answered and only users in the pool are members |
| `FinePoolProofs.StepIsExactIffHarmless` | user_connections.go:35-73 | in a sound pool a step inside adding or removing keeps it sound if and only if what the step relies on is still true |
| `FinePoolProofs.RunIsExactIffHarmless` | user_connections.go:35-73 | over a whole run, under any interleaving of those steps, the pool is sound in every state if and only if every step is of that kind |
| `FinePoolProofs.GuardedRunsAreExact` | user_connections.go:35-73 | if no session makes a step inside AddConnection or RemoveConnection while another of the same nick is inside, the pool is sound throughout, whatever sessions of other nicks do |
| `FinePoolProofs.AtomicRunsAreExact` | user_connections.go:35-73 | in particular it is if nobody acts while another session is inside, the assumption of the chat machine |
| `FinePoolProofs.ExactAtRest` | user_connections.go:28-33 | at rest a sound pool has a handler for exactly the nicks being served, with exactly their connections |
| `FinePoolProofs.HandlerLost` | user_connections.go:54-73 | a run after which a session is served although its nick has no handler |
| `FinePoolProofs.HandlerOrphaned` | user_connections.go:63-65 | a run after which all sessions are gone and the handler is still in the pool |
| `LockProofs.NoDeadlock` | user_connections.go:54-73 | in a state with the lock invariant any thread with work left means some step is enabled |
| `LockProofs.DeadlockFree` | user_connections.go:101-151 | in every reachable state at the granularity of single lock operations, if some thread is not at rest some step can be taken |
| `LockProofs.LocksExclude` | channel_store.go:122-149 | no lock ever has two writers, announced or inside, or a reader beside a writer inside |
| `Sockchat.Channel.MessageMembers` | channel_store.go:143-149 | the loop spawns exactly one write of the message for each member |
| `Sockchat.ChannelStore.GetChannel` | channel_store.go:20-31 | finds exactly the channels in the map and otherwise says why not |
| `Sockchat.ChannelStore.CreateChannel` | channel_store.go:33-44 | answer and new relation are the atomic store's; channels there were keep their objects |
| `Sockchat.ChannelStore.AddUserToChannel` | channel_store.go:46-57 | answer and new relation are the atomic store's; on success, and only then, one write of the joined event per member, the joiner included |
| `Sockchat.ChannelStore.RemoveUserFromChannel` | channel_store.go:59-70 | answer and new relation are the atomic store's; on success, and only then, one write of the left event per remaining member |
| `Sockchat.ChannelStore.DisconnectUser` | channel_store.go:73-79 | the loop spawns exactly one removal of the user for each channel |
| `Sockchat.ChannelStore.IsUserPresentIn` | channel_store.go:87-93 | true exactly for a member of an existing channel |
| `Sockchat.ChannelStore.MessageChannel` | channel_store.go:95-108 | the message is indexed, and then its broadcast spawned, exactly if the channel exists and the index accepts; otherwise nothing changes and the error says which |
| `RequestSpec.WorkFulfils` | user_connections.go:101-130 | by action and on the channels before: when each request succeeds, which error it gives otherwise, and the channels after it |
| `RequestSpec.RequestMeaning` | user_connections.go:103-129 | when each kind of request succeeds and what it then does to the channels: a creator is the only member, joins and leaves change the user's own membership alone, only members send, a failed request changes nothing |
| `Sockchat.UserHandler.HandleRequest` | user_connections.go:101-131 | exactly the four actions with their payload are answered. By action: when the answer is success and which error it is otherwise, the channels after it, that a message that succeeds is indexed with its text, channel, author and time, and exactly which goroutines are spawned |
| `Sockchat.UserHandler.MakeRequest` | user_connections.go:133-137 | the caller of such a request gets that answer, with those effects |
| `Sockchat.OwnNotice` | user_connections.go:105-121 | a creator hears its own joined event alone, a joiner among the members, a leaver the notice that it left and not the left event |
| `Sockchat.UserHandler.Write` | user_connections.go:139-151 | when Write returns every connection of the handler has been written the message once |
| `UserPool.ConnectedUsersPool.GetHandler` | user_connections.go:28-33 | finds a handler exactly for nicks with live connections, and it has exactly those |
| `UserPool.ConnectedUsersPool.AddConnection` | user_connections.go:35-52 | the nick's live connections gain this one; only a nick without connections gets a new handler |
| `UserPool.ConnectedUsersPool.RemoveConnection` | user_connections.go:54-73 | the nick's live connections lose this one; the last one takes the handler out and, then only, spawns its removal from every channel |
| `UserPool.DetachUndoesAttach` | user_connections.go:35-73 | removing a connection after adding it restores the pool, whoever else is in it |
| `UserPool.PoolCountsConnections` | user_connections.go:28-73 | after any sequence of adding and removing in which sessions remove only what they added, the pool is exactly the connections added and not removed, by nick |
| `UserPool.EvictionsClear` | channel_store.go:73-79 | in whatever order the removal goroutines run, the user ends in no channel and no other membership changes |
| `Messaging.MessagingAPI.AuthorizeConnection` | services/messaging.go:60-77 | a connection is authorized, registered and told so exactly by a login that decodes and has the right password; otherwise nothing changes, and the error is that of the first of the three that fails |
| `Messaging.MessagingAPI.ServeAuthorizedConnection` | services/messaging.go:88-104 | the handler is always found; a message with one of the four actions and its payload gets the answer, and has the effects, that its action has for the nick's handler; any other is refused and changes nothing |
| `Messaging.MessagingAPI.ShutConnection` | services/messaging.go:106-111 | the pool is as it was before the session, and if nobody else is there under its nick one removal for each channel is spawned |
| `Messaging.MessagingAPI.ServeSession` | services/messaging.go:33-58 | on any sequence of messages: the session is let in exactly if one of them is a login with the right password, under the nick of the first such; none is cut off by an error, answers and channels are those of the requests made one after the other on the atomic store, the socket is written exactly the feedback owed, the pool ends as it began |
| `Messaging.StrangerMeaning` | services/messaging.go:60-77 | one more message of a session not logged in: a login with the right password is told, any other is refused with its reason, and neither changes a channel |
| `Messaging.LoggedInMeaning` | services/messaging.go:88-104 | one more message of a session logged in: what parses is answered and takes effect by its action, and an error is told; the rest is refused |
| `Messaging.LoginMeaning` | services/messaging.go:36-51 | somebody is let in exactly if some message is a login with the right password, and it is the nick of the first such |
| `Messaging.ForwardedIsAccepted` | services/messaging.go:44-51 | nothing is forwarded before a login, and everything forwarded is something the actor answers |
| `Messaging.ToldOnce` | services/messaging.go:67-73 | a session tells its user of the login exactly once if it logs in and never otherwise |
| `ProfileProofs.RunKeeps` | user_profile.go:20-111 | in every interleaving of registering, editing, lookups, fills and expiry, rows in the cache or on their way there are sound |
| `ProfileProofs.AuthAgreesWithTable` | user_profile.go:57-69 | a lookup that found its user lets in exactly those whose password compares with the hash the table has, at that step and at any later one; one that found nobody lets nobody in |
| `ProfileProofs.LookupSeesTable` | user_profile.go:85-99 | in every interleaving the step that answers a lookup finds the user exactly if the table has one at that step, with the table's hash |
| `ProfileProofs.CachedHashesAreCurrent` | user_profile.go:101-107 | every cached row is keyed by its own nick and every cached or pending row has an existing user's current hash |
| `ProfileProofs.CacheIsFresh` | user_profile.go:45-55 | with no edit of a nick open its cached row is of the latest version if and only if its fill overlapped no edit, and then it is the table's row |
| `ProfileProofs.ReadsAreFreshIff` | user_profile.go:71-99 | whatever runs until the next UPDATE of a nick, every lookup that begins from now on and is answered finds the table's row, if and only if no other row is cached or on its way to the cache |
| `ProfileProofs.EditIsSeen` | user_profile.go:45-55 | an edit, from its UPDATE through anything else to its invalidation: every lookup that begins after it and is answered before the next edit finds the edited description, if and only if no fill was under way at the invalidation with another row |
| `ProfileProofs.NewDescriptionIsRead` | user_profile.go:45-83 | with no such fill, a GetProfile that starts after the edit and is answered before the next one has the new description, however the two stretches run |
| `ProfileProofs.StaleProfile` | user_profile.go:85-111 | a run in which a fill overlaps an edit and leaves the old description cached |
| `UserProfile.ProfileService.Create` | user_profile.go:20-43 | exactly when a profile is created, what row is added, and which error is given in each other case |
| `UserProfile.ProfileService.Edit` | user_profile.go:45-55 | exactly this nick's description changes and its cache entry goes, if the table can be written; a missing nick is no error |
| `UserProfile.ProfileService.GetUserData` | user_profile.go:85-99 | what is found and when, which error otherwise, that a miss spawns one fill, and that the hash found is the table's |
| `UserProfile.ProfileService.IsAuthValid` | user_profile.go:57-69 | nobody is let in without a nick, a password and a row in the table whose hash compares with it; everybody with them is if the user can be looked up |
| `UserProfile.ProfileService.GetProfile` | user_profile.go:71-83 | the errors in each case, and that the description is the table's when no other row is cached or on its way to the cache |
| `UserProfile.ProfileService.SetInCache` | user_profile.go:101-107 | the row is cached under its own nick |
| `Reports.NewMessageCountDistribution` | storage/reports.go:138-150 | the entries are the buckets, in order, and there are none if there was no histogram |
| `Reports.NewUserActivityReport` | storage/reports.go:128-136 | the map holds exactly the buckets' channels, each with what its bucket says |
| `Reports.GetUserActivityReport` | storage/reports.go:105-126 | whatever the grouping, a range out of order and one of more than thirty days are refused, each with its error, and no other is; then comes the error of the encoding or of the engine, or the decoded answer with the options' range |
| `ReportProofs.ReportMeaning` | storage/reports.go:128-176 | for every range in order of at most thirty days, building, evaluating and decoding is naive counting: each total is the author's messages in the window, no channel left out has more, at most fifty are named, and all the author wrote in if there are at most fifty |
| `ReportProofs.ReportPartition` | storage/reports.go:138-198 | a grouped report has for each channel exactly one entry per period of the window, ascending and with empty periods too, each the naive count of its period, summing to the total |
| `ReportProofs.PeriodMeaning` | storage/reports.go:178-198 | day, hour and minute periods are consecutive stretches of that many whole seconds |
| `ReportProofs.SameWindow` | storage/timestamp_mapping.json:3-10 | the bounds in milliseconds and the filter in seconds denote the same periods |
| `ReportProofs.ReportBound` | storage/reports.go:157-162 | a channel of an accepted report has at most 31, 721 or 43201 entries by day, hour or minute, thirty days exactly have as many, and every range in order that is refused would have no fewer |

## Left out

- AddConnection and RemoveConnection of the pool are one step each in `ChatSystem`, so its pool and membership theorems hold under that assumption; `FinePool` and `LockMachine` split them, the first without channels, so it does not say what becomes of memberships, the second without data.
- Messaging.MessagingAPI.ServeSession: no other session runs in between; `ChatSystem` is about sessions that run together.
- Sockchat.UserHandler.MakeRequest: the rendezvous is collapsed into a call of HandleRequest; `ChatSystem` models it as two rendezvous on unbuffered channels.
- Websocket, HTTP and gRPC transport, JSON, read deadlines and logging: a session's input is an arbitrary sequence of decoded messages with a close, and decoding a payload succeeds or fails. A message that is the JSON value null, on which the session's goroutine would crash, is not modelled.
- `readLock` of a connection (`services/messaging.go:144-149`) is not among the locks of `LockMachine`: only the session's own thread ever takes it, and it holds it just while waiting for its client.
- The order in which messages arrive at a client: writes are independent goroutines and nothing is promised.
- Elasticsearch, MySQL and Redis themselves. The index takes a message or refuses it; the table has unique nicks compared exactly (MySQL's collation may compare them more loosely); the cache may expire, fail or drop a fill at any time, and an invalidation that fails leaves its edit open in the freshness theorems.
- bcrypt: an arbitrary comparison of hash and password; hashing may fail.
- Reports.GetUserActivityReport: the engine is any function from queries to answers or failure; the theorems of `ReportProofs` take the reference evaluator for it. The evaluator knows the intervals day, hour and minute, in UTC, and rejects others; the engine's own limit on the number of buckets is left out.
- The text of a period's key: a key is its format and the start of its period, which each format shows completely.
- Users are deleted by nothing in the code, so the table only grows.
- `services/core.go`, `services/web.go`, `services/grpc.go`, `services/authentication.go`, `api/`, `protobuf/` and `webserver/`: delegation, copies, error tables and start-up, which would only add easy members.
