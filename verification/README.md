# Cluster chat server: a verified model

A Dafny model of the shared-state machinery of the cluster chat server: the handlers of
`ChatService`, the subscriber thread and task queue of `RedisClient`, both connection pools, the
offline message store, the friend gate, cluster presence and the client's login handshake.

Two forms are used, as the program itself has two. Objects whose methods update their fields are
classes (`RedisClient`, `ChatService`, `RedisConnectionPool`, `MySQLConnectionPool`,
`OfflineMessage`, `FriendModel`, `GroupTables`, ...), each method proved against a specification.
What threads do to each other is a step system: a state, `Enabled(s, a)` and `Next(s, a)`, where an
action is one critical section, one database or Redis call, or one wake-up, and carries every
choice of the scheduler and of the environment (null connections, exceptions, TTL expiry, timeouts,
spurious wake-ups). `Valid`/`Exec` run a sequence of actions, and the theorems quantify over all of
them. Where a class and a system model the same state, the contract of a method names the step its
call is: the pools, `OfflineLists`, `ChatService`, `ChatDesk` and `GroupDesk` carry or compute the
state of their system (`monitor`, `ledger`, `boxes`, `Snapshot`, `View`) and move it by `Next`.

| file | models |
|---|---|
| `Subscription.dfy` | task queue, subscriber loop body, clean-up |
| `NodeSystem.dfy` | a node: any number of handler threads and the subscriber thread, interleaved |
| `ChatNode.dfy` | `ChatService` handlers over connections and groups, sessions, local fan-out |
| `GroupModel.dfy` | the GroupUser table, its queries, and the node's memberships against it |
| `Scripts.dfy` | the borrow/return shapes of pooled operations, with exceptions |
| `RedisPool.dfy` | the Redis pool as a monitor with a condition variable |
| `MySqlPool.dfy` | the MySQL connection ledger |
| `Exhaustion.dfy` | one-to-one chat on top of that ledger |
| `LockOrder.dfy` | lock order and deadlock freedom |
| `Presence.dfy` | presence shared by several nodes |
| `Cluster.dfy` | a group message across all nodes |
| `OfflineStore.dfy`, `OfflineStoreThreads.dfy` | `OfflineMessage::insert`, serial and concurrent |
| `OneChat.dfy`, `OneChatThreads.dfy` | friend table, one-to-one chat, conservation of messages, serial and concurrent |
| `OfflineList.dfy` | the Redis list of offline messages |
| `Undelivered.dfy` | where offline messages are stored against where logins look |
| `Handshake.dfy` | the client's login/register handshake |

## What turned out false, and exactly when it holds

- A node does not always stay subscribed to a group it has members of: `subscribeGroupChannel`
  returns early while a queued unsubscribe is about to take effect, and a failed Redis call is not
  retried. `SubscriptionTracksMembership` shows that these are the only gaps: membership is tracked
  in every state of a run if and only if no step is one of them;
  `RejoinBeforeDrainLosesSubscription` and `FailedCallLosesSubscription` give a run for each.
- An empty group can stay subscribed after its last member left: when its subscribe task was not yet
  applied, the request to unsubscribe is dropped. `NodeSystem.LeaveCollectsExactly` says exactly when,
  `LeaversCollectExcess` that it never happens from a drained queue, and
  `LeaveBeforeSubscribedLeavesExcess` gives a run.
- What `oneChat` stores for an absent user is never handed over: it goes to the MySQL table and
  logins read the Redis list (`StoredChatsAreNeverHandedOver`, `StoredMessagesStay`,
  `NothingIsHandedOver`).
- Friendship is meant to be mutual, but the gate of `oneChat` only opens from the smaller id to the
  larger (`GateOpensOneWay`, `LargerFriendIsRefused`).
- `FriendModel::query` never returns its connection; as many friend queries as the pool has
  connections empty it for good (`FriendQueriesDrainThePool`; `SerialQueriesDrainThePool` gives a run
  for every pool), so a server acknowledges at most that
  many one-to-one messages in its life (`ChatsAreBoundedByThePool`).
- A message pushed between the two Redis calls of a pop is lost (`PushInBetweenIsLost`); overlapping
  pops of one user, or a failed delete, hand the list over twice (`OverlappingPopsHandOverTwice`,
  `FailedDeleteHandsOverTwice`). `ListHandsOverOnce` says exactly which runs are free of all three.
- `queryGroups` fills its member lists on copies, so a login records no membership
  (`GroupTables.QueryGroups`, `LoginRecordsNobody`). Its entries without members also keep the
  membership fallback from being used (`LoginEndsTheFallback`), so a member that logs out stays out of the group at that node
  until it joins again (`UnrecordedUntilJoin`, `LogOutForgetsGroups`, `LoginAgainIsUnrecorded`).
- A join is recorded at the node even if its row could not be stored; `MembershipIsBacked` says that
  this is the only way for a node to have a member the table does not (`FailedJoinIsNotBacked`).
- After a TTL expiry a user can be on two nodes (`ExpiryAllowsTwoNodes`), and an offline write that
  is cut short leaves a user recorded where it is not (`CutShortLosesSoundness`); `PresenceIsExact`
  and `PresenceIsSound` say exactly which steps break the agreement of the hash with the maps.
- A close removes one entry of its connection, so entries can outlive it, exactly when it carried
  several ids (`NoEntryOutlivesItsConnection`; `SharedConnectionLeavesEntry` gives a run).
- The retry limit of `OfflineMessage::insert` counts null connections only; exceptions are retried
  without limit (last clause of `OfflineMessage.Insert`).

## Model

| member | source | states |
|---|---|---|
| Subscription.DrainIsLastTaskWins | src/server/redisclient.cpp:345-372 | applying a queue task by task subscribes a group exactly when the last task for it says so, or none does and it was subscribed before |
| Subscription.DrainWithIsLastSuccessWins | src/server/redisclient.cpp:350-372 | the same with failing Redis calls and a Stop in the batch: the last task that reached Redis before the Stop decides |
| Subscription.SucceedingSnoc | src/server/redisclient.cpp:350-372 | which tasks reach Redis, told from the end of the batch: one more exactly if its call succeeds, it is no Stop and none came before |
| Subscription.DrainWithNothingFailing | src/server/redisclient.cpp:350-372 | with no call failing the loop with failures is the plain drain, for every queue, Stop included |
| Subscription.RedisClient.SubscribeGroupChannel | src/server/redisclient.cpp:395-400 | the queue gains one Subscribe at its end unless the recorded set already has the group; nothing else changes |
| Subscription.RedisClient.UnsubscribeGroupChannel | src/server/redisclient.cpp:403-407 | the queue gains one Unsubscribe at its end if the recorded set has the group; nothing else changes |
| Subscription.RedisClient.ProcessTasks | src/server/redisclient.cpp:345-372 | one round empties the queue, keeps Redis and the recorded set equal whichever calls throw, both equal to the specified drain, and stops exactly on a Stop task |
| Subscription.RedisClient.CleanUp | src/server/redisclient.cpp:375-384 | the recorded groups whose unsubscribe call came before the first one that threw are gone at Redis, as many as calls succeeded, all of them exactly when none threw; no other channel is touched |
| NodeSystem.InvStep | src/server/redisclient.cpp:321-384 | every step of any thread keeps: lock ownership, a group about to be unsubscribed is empty, visited groups no longer hold the leaver, Redis matches the recorded set up to the task in hand, no Stop before shutdown |
| NodeSystem.TracksStep | src/server/chatservice.cpp:477-503 | from a tracking state, a step of any thread before shutdown stops tracking a populated group if and only if it is one of the two gap steps |
| NodeSystem.SubscriptionTracksMembership | src/server/redisclient.cpp:345-407 | for any threads, interleaving and Redis failures before shutdown: a populated group is, in every state, heading for a subscription or owed a call, if and only if no step of the run is a skipped last call facing a pending unsubscribe or the failure of the only subscribing task |
| NodeSystem.CallSubscribeTracks | src/server/redisclient.cpp:395-400 | a subscribe call keeps a populated group tracked if and only if it is not the last owed call, skipped while the pending tasks end in an unsubscribe |
| NodeSystem.FailedSubscribeTracks | src/server/redisclient.cpp:351-358 | a failed Redis subscribe keeps a populated group tracked if and only if a call is still owed, the group is subscribed already, or another task for it is pending |
| NodeSystem.RejoinBeforeDrainLosesSubscription | src/server/redisclient.cpp:395-407 | a run that ends drained and idle with a member in a group the node is not subscribed to |
| NodeSystem.FailedCallLosesSubscription | src/server/redisclient.cpp:351-358 | a run that ends the same way after the only subscribe call failed |
| NodeSystem.LeaveBeforeSubscribedLeavesExcess | src/server/redisclient.cpp:403-407 | a run that ends drained and idle with an empty group subscribed |
| NodeSystem.HeadingStep | src/server/redisclient.cpp:403-407 | a step of a leaver or a successful step of the subscriber thread changes where a group is heading in one case only: an unsubscribe request that finds the group recorded |
| NodeSystem.LeaveCollectsExactly | src/server/chatservice.cpp:257-266 | from any reachable state, through any interleaving of leavers with the subscriber thread: once drained, a group is subscribed at Redis if and only if it was heading for it and every leaver's request for it was dropped because it was not recorded yet |
| NodeSystem.LeaversCollectExcess | src/server/chatservice.cpp:289-295 | from any reachable drained state, a leaver interleaved with the subscriber thread, and any leavers after it, leave no empty group subscribed once the lock is free and the queue drained |
| NodeSystem.SubscriberCatchesUp | src/server/redisclient.cpp:344-372 | from every reachable state before shutdown the subscriber thread alone reaches an empty queue in a known number of steps, with Redis and the recorded set equal to what the accepted requests amount to and nothing else changed |
| NodeSystem.MembershipStep | src/server/chatservice.cpp:494-497 | for every step of every thread, group and user: recorded afterwards exactly if the step adds it (a join, or a fallback that loads it), or it was recorded and the step is not its own leaver at that group |
| NodeSystem.MemberUntilErased | src/server/chatservice.cpp:477-531 | under every interleaving a recorded member stays recorded in every state if and only if no leaver with its id visits the group |
| NodeSystem.EntryStep | src/server/chatservice.cpp:517-531 | entries are made by joins, logins and non-empty fallbacks, and never removed |
| NodeSystem.OwesStep | src/server/chatservice.cpp:496-503 | a thread owes a subscribe call exactly from its update of the members until it makes the call |
| NodeSystem.LoadingStep | src/server/chatservice.cpp:519-524 | a thread turns to the database exactly when it finds no entry for the group |
| NodeSystem.StopAppliesWhatWasAccepted | src/server/redisclient.cpp:368-384 | when the subscriber thread takes the Stop task, without failing calls, it has recorded exactly what the requests accepted before the shutdown amount to; later requests never count |
| NodeSystem.FinishedByCleanUp | src/server/redisclient.cpp:374-384 | the subscriber thread does not finish without the clean-up |
| NodeSystem.LeaverIsInNoGroup | src/server/chatservice.cpp:257-266 | under every interleaving, a leaver that ends its loop is in none of the node's groups |
| NodeSystem.AbstractRun | src/server/redisclient.cpp:344-407 | the queued system simulates immediate application: recorded set plus pending tasks always amount to the accepted requests applied in order |
| NodeSystem.DrainingRefinesLastTaskWins | src/server/redisclient.cpp:344-407 | once the queue is empty, a group is subscribed at the node and at Redis exactly when the last accepted request for it was a subscribe, whatever the interleaving |
| NodeSystem.ChannelsMatchSubscribed | src/server/redisclient.cpp:351-366 | Redis and the recorded set agree at every task boundary of every run, with calls throwing anywhere |
| NodeSystem.CleanUpEmptiesRedis | src/server/redisclient.cpp:375-384 | after the clean-up Redis holds no channel of the node if and only if no unsubscribe of the clean-up threw, including runs whose last batch was cut short by Stop |
| NodeSystem.QuietNodeReceives | src/server/redisclient.cpp:353-355 | on a run without gaps, a drained node with no call owed is subscribed at Redis to every group it has a member of |
| ChatNode.ChatService.LoginGroups | src/server/chatservice.cpp:163-202 | members and task queue after the whole group loop of a login, equal to the functions the next three rows are about |
| ChatNode.LoginJoinsListedGroups | src/server/chatservice.cpp:187-198 | the loop adds the id to exactly the listed groups that name it and changes no other membership |
| ChatNode.LoginMakesEntries | src/server/chatservice.cpp:190 | the node has entries exactly for the groups it had them for and the listed ones, whether or not the list names the id |
| ChatNode.LoginAsksForListedGroups | src/server/chatservice.cpp:200-201 | for every group, the last task after the loop is a Subscribe if the group is listed and not subscribed, and what it was before otherwise; earlier tasks stay in front |
| ChatNode.ChatService.Login | src/server/chatservice.cpp:105-202 | refused exactly when the lookup works and finds the user online; otherwise the session event Login, an existing entry kept, the presence step Login of this node whatever the other nodes hold, and the subscribe requests of the loop |
| ChatNode.ChatService.JoinGroup | src/server/chatservice.cpp:494-503 | the call is the session event Join: for every group and user, a member afterwards exactly if it was one or is the one who joins; and the subscribe request is made |
| ChatNode.ChatService.LoadMembers | src/server/chatservice.cpp:517-531 | no effect when an entry exists, otherwise the session event Load with the queried users, and the subscribe request |
| ChatNode.MembershipStep | src/server/chatservice.cpp:246-298 | for every event, group and user: a member afterwards exactly if the event adds it (its join, its login with an entry naming it, a fallback loading it), or it was one and the event is not its own logout or a close that finds it |
| ChatNode.EntryStep | src/server/chatservice.cpp:163-202 | entries are made by joins, non-empty fallbacks and listed groups, and never removed |
| ChatNode.ConnectionStep | src/server/chatservice.cpp:114-118 | an id is mapped to a connection exactly by its first login, and unmapped exactly by its logout or a close that finds it |
| ChatNode.ChatService.EraseFromGroups | src/server/chatservice.cpp:257-266 | the id is erased from every group, and the queue gains one unsubscribe for each group left empty that is subscribed, each once, in any order |
| ChatNode.ChatService.LoginOut | src/server/chatservice.cpp:246-268 | the call is the session event LogOut and the presence step LogOut of this node with any number of fields deleted, and the queue gains the unsubscribe round of the emptied groups |
| ChatNode.ChatService.ClientQuit | src/server/chatservice.cpp:270-298 | the call is a session event Close of that connection, its victim one of the ids on it or nobody if there is none; the presence step Close for the victim; the unsubscribe round exactly when an id other than -1 was found |
| ChatNode.RoundDrains | src/server/redisclient.cpp:345-372 | draining the requests of one leaver takes exactly the empty groups out of the subscribed ones |
| ChatNode.ChatService.LogOutAndDrain | src/server/chatservice.cpp:246-268 | from an empty queue, a logout and the next round of the subscriber thread give up exactly the empty ones of the subscribed groups, at the node and at Redis |
| ChatNode.ChatService.CloseAndDrain | src/server/chatservice.cpp:270-298 | the same for a close that finds a session, and no change of subscriptions for one that finds none |
| ChatNode.ChatService.OnGroupMessage | src/server/chatservice.cpp:47-61 | the multiset of sends is one copy per member found connected at its own lookup, although the connection map may change between lookups |
| ChatNode.FanOutIsExactlyOnce | src/server/chatservice.cpp:52-58 | a send happens once if its recipient is a member, connected when looked up, on that connection; and not at all otherwise |
| ChatNode.DrainedNodeDeliversOnce | src/server/redisclient.cpp:305-314 | on a run without gaps, once drained, a publish reaches every connected local member exactly once |
| ChatNode.GapLosesMessages | src/server/redisclient.cpp:395-400 | a run that ends drained with a connected member to whom the node sends nothing |
| ChatNode.StaleStep | src/server/chatservice.cpp:273-284 | from a node whose entries all refer to open connections, a step keeps that if and only if it is not a close of a connection carrying several ids |
| ChatNode.TeardownLeavesNoTrace | src/server/chatservice.cpp:246-298 | after any run, a logout, or the close of a connection that carries only this id, takes the id and nobody else out of the map and all groups; it stays out in every later state if and only if no later login or join is its own and no fallback loads it |
| ChatNode.NoEntryOutlivesItsConnection | src/server/chatservice.cpp:270-298 | over every serial run of logins, logouts, joins and closes, no entry ever refers to a closed connection if and only if every connection carries at most one id when it closes |
| ChatNode.SharedConnectionLeavesEntry | src/server/chatservice.cpp:273-284 | a run with two logins on one connection whose close leaves an entry behind |
| ChatNode.CloseClearsOnlyOneId | src/server/chatservice.cpp:273-284 | a close removes exactly one of the connection's entries; it clears the connection if and only if that carried at most one id |
| Cluster.ClusterDeliversOnce | src/server/chatservice.cpp:533-534 | with every node settled and presence in agreement, a connected member gets a group message exactly once in the whole cluster: one copy from its node on its connection, none from any other |
| GroupModel.GroupTables.QueryGroupUsers | src/server/model/groupmodel.cpp:120-154 | exactly the members other than the asker, or nobody on failure |
| GroupModel.GroupTables.QueryGroups | src/server/model/groupmodel.cpp:65-118 | exactly the user's groups, each with an empty member list, because the members are set on copies |
| GroupModel.LoginRecordsNobody | src/server/model/groupmodel.cpp:91-106 | with such entries the group loop of a login changes no membership at all |
| GroupModel.FallbackSkipsTheSender | src/server/chatservice.cpp:517-534 | after the membership fallback a group message goes once to each connected member other than the sender |
| GroupModel.GroupDesk.JoinGroup | src/server/chatservice.cpp:487-503 | the call is one step on table and node: the membership is recorded in any case, the row if the statement succeeds; and the subscribe request is made |
| GroupModel.GroupDesk.GroupChat | src/server/chatservice.cpp:517-531 | the call is one step: nothing with an entry, otherwise the other members in the table become the node's members and the subscribe request is made |
| GroupModel.GroupDesk.Login | src/server/chatservice.cpp:163-202 | an accepted login is one step with the answer of queryGroups and makes the subscribe requests of its groups, a refused one changes nothing |
| GroupModel.BackedStep | src/server/chatservice.cpp:487-497 | from a node whose recorded members are all in the table, a step keeps that if and only if it is not a join that leaves no row |
| GroupModel.MembershipIsBacked | src/server/chatservice.cpp:487-531 | over every run of joins, group messages, logins, logouts and closes, recorded members are in the table in every state if and only if no join fails to leave its row |
| GroupModel.FailedJoinIsNotBacked | src/server/model/groupmodel.cpp:39-63 | a join without a database connection after which the node has a member the table does not |
| GroupModel.RecordedStep | src/server/chatservice.cpp:487-531 | for every step, group and user: recorded afterwards exactly by its own join, by a message of another member that finds no entry while the table has the row, or if recorded before and the step does not end its session |
| GroupModel.RecordedUntilLeaving | src/server/chatservice.cpp:246-298 | over every run a recorded member stays recorded in every state if and only if no logout or close ends its own session |
| GroupModel.LoginEndsTheFallback | src/server/chatservice.cpp:187-198 | from the first accepted login of a member on, in every later state, a group message for that group changes nothing: the entry keeps the fallback from being used |
| GroupModel.UnrecordedUntilJoin | src/server/chatservice.cpp:163-202 | once a node has an entry for a group, a user not in it stays out in every later state, through logins, group messages and ends of sessions, if and only if the user does not join the group again |
| GroupModel.LogOutForgetsGroups | src/server/chatservice.cpp:246-268 | after a logout the same holds for every group the node has an entry for |
| GroupModel.LoggedOutIsReached | src/server/chatservice.cpp:257-266 | a run after which a member in the table has an empty entry at the node |
| GroupModel.LoginAgainIsUnrecorded | src/server/chatservice.cpp:187-198 | its next login leaves it connected and unrecorded |
| Scripts.ReturnAfterOnce | src/server/redisclient.cpp:70-86 | operations that release after their try return the connection exactly once on every path, for any number of calls |
| Scripts.ReturnInBothOnce | src/server/redisclient.cpp:88-100 | operations that release in the try and in the catch return it exactly once on every path |
| Scripts.ReturnInTryLeaks | src/server/model/groupmodel.cpp:47-62 | releasing only at the end of the try is exactly once if and only if nothing can throw |
| Scripts.NoReturnNever | src/server/model/friendmodel.cpp:47-70 | the friend query returns its connection on no path |
| RedisPool.RedisConnectionPool.Init | src/server/redisconnectionpool/redisconnectionpool.cpp:9-28 | the monitor starts with the connections of the successful attempts in order, distinct, with all its invariants |
| RedisPool.OpenedSnoc | src/server/redisconnectionpool/redisconnectionpool.cpp:14-26 | one more attempt adds its connection at the end exactly if it succeeds |
| RedisPool.RedisConnectionPool.EnterAcquire | src/server/redisconnectionpool/redisconnectionpool.cpp:31-45 | refused exactly when stopped, waiting exactly when not stopped and empty, otherwise the front is lent; the call is the monitor step Begin of its thread, which then sleeps, is gone or holds that connection |
| RedisPool.RedisConnectionPool.WakeInAcquire | src/server/redisconnectionpool/redisconnectionpool.cpp:35-45 | refused exactly when stopped or timed out on an empty pool, waiting again exactly when neither and empty, otherwise the front is lent; the call is the monitor step TryAgain |
| RedisPool.RedisConnectionPool.Release | src/server/redisconnectionpool/redisconnectionpool.cpp:48-53 | null is ignored, otherwise the connection joins the end and the call is the monitor step DoRelease of the holder |
| RedisPool.RedisConnectionPool.Stop | src/server/redisconnectionpool/redisconnectionpool.cpp:55-64 | the first call sets the flag, empties the queue and is the monitor step StopPool, later calls change nothing |
| RedisPool.InvStep | src/server/redisconnectionpool/redisconnectionpool.cpp:30-66 | every step keeps lending, conservation and wake-up invariants at once |
| RedisPool.NoConnectionLentTwiceOrLost | src/server/redisclient.cpp:57-285 | over all interleavings and exceptions no connection is in two hands or both lent and idle, and until stop each one opened is idle or with exactly one thread |
| RedisPool.NoWakeUpIsLost | src/server/redisconnectionpool/redisconnectionpool.cpp:33-53 | before stop, whenever a thread sleeps in acquire the idle connections are at most the woken threads that have yet to recheck |
| RedisPool.IdleConnectionIsClaimed | src/server/redisconnectionpool/redisconnectionpool.cpp:35-52 | with a sleeper and an idle connection there is a woken thread that will take it |
| RedisPool.WaiterGetsWhatIsReleased | src/server/redisconnectionpool/redisconnectionpool.cpp:33-53 | from any state with an empty pool, a thread that comes sleeps, and after the next release that wakes it, it holds the connection given back |
| RedisPool.SecondThreadIsServed | src/server/redisconnectionpool/redisconnectionpool.cpp:30-53 | a run from the start in which a thread sleeps, is woken by a release and holds the connection |
| RedisPool.LentInOrder | src/server/redisconnectionpool/redisconnectionpool.cpp:42-51 | until stop, connections lent so far followed by the idle ones are those of the start followed by those given back, in that order, over every interleaving |
| RedisPool.StopWakesEverybody | src/server/redisconnectionpool/redisconnectionpool.cpp:55-66 | once stop has notified nobody sleeps, then or in any later state |
| RedisPool.NothingLentAfterStop | src/server/redisconnectionpool/redisconnectionpool.cpp:32-42 | once the flag is set nobody ever obtains a connection again |
| MySqlPool.MySQLConnectionPool.InitConnection | src/server/mysqlconnectionpool/mysqlconnectionpool.cpp:51-66 | the ledger starts with the created connections in order |
| MySqlPool.MySQLConnectionPool.GetConnection | src/server/mysqlconnectionpool/mysqlconnectionpool.cpp:68-80 | the front is taken out and handed over, null exactly when every connection of the pool is held or leaked; the call is the ledger step Get |
| MySqlPool.MySQLConnectionPool.ReleaseConnection | src/server/mysqlconnectionpool/mysqlconnectionpool.cpp:82-89 | null is refused, otherwise the connection joins the end, the call is the ledger step DoRelease and the borrower is no longer a holder |
| MySqlPool.EndLeaks | src/server/model/groupmodel.cpp:33-36 | a borrower ends holding its connection exactly if it is a friend query or a throwing method that releases inside its try; a store trip never does |
| MySqlPool.LedgerBalances | src/server/mysqlconnectionpool/mysqlconnectionpool.cpp:68-89 | in every reachable state idle, held and leaked add up to the pool, and the leaked are exactly the ended friend queries plus the throwing ends |
| MySqlPool.NoConnectionLentTwiceOrLost | src/server/mysqlconnectionpool/mysqlconnectionpool.cpp:68-89 | from distinct connections, in every reachable state none is in two hands, nor in two of the hands, the queue and the leaked ones, and the three together are exactly those the pool was given |
| MySqlPool.LentInOrder | src/server/mysqlconnectionpool/mysqlconnectionpool.cpp:75-88 | connections lent so far followed by the idle ones are those of the start followed by those given back, in that order |
| MySqlPool.FriendQueriesDrainThePool | src/server/model/friendmodel.cpp:36-71 | never more friend queries are served than the pool has connections, and once that many are, every later state has an empty pool |
| MySqlPool.SerialQueriesDrainThePool | src/server/model/friendmodel.cpp:36-71 | for every pool, a run of one thread making as many friend queries as there are connections, nothing failing, that ends with the pool empty and nobody borrowing |
| Exhaustion.ChatsAreBoundedByThePool | src/server/chatservice.cpp:317-340 | whatever else runs, the messages acknowledged with errno 0 never exceed the pool size, and once they reach it no message that can arrive passes |
| LockOrder.HandlersAreRanked | src/server/chatservice.cpp:32-62 | every path of every handler and of the inbox callback takes locks in the order callback, group, user connections, then one leaf at a time, for any loop counts |
| LockOrder.RequestsUnderGroupLock | src/server/chatservice.cpp:257-266 | leavers and the fallback make their requests while holding the group lock |
| LockOrder.RequestsAfterGroupLock | src/server/chatservice.cpp:494-503 | login and join make theirs after releasing it |
| LockOrder.LookUpsUnderLocks | src/server/chatservice.cpp:36-58 | which handlers look connections up under the user lock, shared or not, and what is nested in it |
| LockOrder.FlattenTakes | src/server/chatservice.cpp:246-298 | a thread takes exactly the locks of its program, each in its mode |
| LockOrder.LocksExclude | src/server/chatservice.cpp:246-298 | in every reachable state an exclusive holder of a lock is its only holder |
| LockOrder.ObstructedExactly | src/server/chatservice.cpp:32-62 | a thread has to wait exactly when somebody holds the lock, exclusively if it asks for a shared one |
| LockOrder.DeadlockFree | src/server/chatservice.cpp:246-298 | no reachable state, for any number of threads running any programs that keep this order, with shared and exclusive locks and readers queueing behind waiting writers or not, has a set of threads waiting for one another |
| LockOrder.SomeThreadCanStep | src/server/chatservice.cpp:517-531 | as long as some thread has code left, some thread waits for no holder and no queued writer, and can take a step |
| Presence.PresenceApi.IsUserOnline | src/server/redisclient.cpp:88-100 | true exactly when the lookup works and the field is set |
| Presence.PresenceApi.SetUserOnline | src/server/redisclient.cpp:70-86 | field by field: online after one call, node after two, conn after three, nothing else and no other user; the same function the presence steps use |
| Presence.PresenceApi.SetUserOffline | src/server/redisclient.cpp:130-145 | field by field: online gone after one call, conn after two, node after three, nothing else and no other user; the same function the presence steps use |
| Presence.PresenceIsSound | src/server/chatservice.cpp:246-298 | with arbitrary expiry, failing lookups and partial online writes: a user recorded at a node is in that node's connection map in every state of a run, if and only if no offline write at the recorded node is cut short |
| Presence.SoundStep | src/server/redisclient.cpp:136-141 | a step keeps presence sound if and only if it is not an offline write at the recorded node that stops before the node field |
| Presence.CutShortLosesSoundness | src/server/redisclient.cpp:136-141 | a run in which two of three fields are deleted and the user stays recorded at a node whose map has no entry |
| Presence.PresenceIsExact | src/server/chatservice.cpp:105-122 | hash and maps agree exactly, on node, connection and online flag, in every state of a run if and only if every step passes a guard that reads the hash alone: no expiry of a recorded user, no login of a user recorded elsewhere, with a field left unwritten, or overwriting the connection recorded here, no logout away from the recorded node or cut short there |
| Presence.AgreementLost | src/server/redisclient.cpp:70-86 | each step outside that guard does break the agreement |
| Presence.OnAtMostOneNode | src/server/chatservice.cpp:96-122 | in agreeing runs an id is in a node's map exactly when recorded online there, with the recorded connection, hence in at most one |
| Presence.LoginTakesEffect | src/server/chatservice.cpp:114-118 | in agreeing runs a login that is looked up and not refused finds no entry on any node, so its insert takes effect |
| Presence.ExpiryAllowsTwoNodes | src/server/redisclient.cpp:81 | a run with one expiry that puts a user on two nodes |
| OfflineStore.OfflineMessage.TryStore | src/server/model/offlinemessage.cpp:22-49 | a trip that throws moves a prefix of the queue into the table and loses nothing; it succeeds exactly when the exception lies beyond its last statement |
| OfflineStore.OfflineMessage.Insert | src/server/model/offlinemessage.cpp:7-65 | rows followed by queue gain exactly the message at the end; false exactly after three null connections; every trip is a null connection, one that really threw, or the last and successful one; while blocked with fewer than three nulls it goes on retrying |
| OfflineStore.OfflineMessage.InsertAll | src/server/model/offlinemessage.cpp:7-65 | serial calls keep every message in the order given |
| OfflineStoreThreads.ConservedStep | src/server/model/offlinemessage.cpp:24-43 | every statement of every thread keeps each message in as many places as it was given, up to the row between insert and pop |
| OfflineStoreThreads.ConcurrentInsertsConserve | src/server/model/offlinemessage.cpp:7-65 | for any number of concurrent calls and any rows there at the start, whenever none is in progress, rows and queue hold every message exactly as often as it was given |
| OfflineStoreThreads.GivesUpOnThirdNull | src/server/model/offlinemessage.cpp:8-20 | under every interleaving and with any exceptions a call gives up exactly on its third null connection |
| OfflineStoreThreads.FlushedInOrder | src/server/model/offlinemessage.cpp:24-37 | messages leave the failure queue in the order they were put into it, whichever threads flush and queue |
| OneChat.FriendModel.Insert | src/server/model/friendmodel.cpp:5-34 | the ordered pair is stored when the statement succeeds |
| OneChat.FriendModel.Query | src/server/model/friendmodel.cpp:36-71 | exactly the ids stored to the right of the user, without repetition, or none on failure |
| OneChat.ChatDesk.AddFriend | src/server/chatservice.cpp:459-465 | the desk moves by the friend step and by nothing else |
| OneChat.ChatDesk.OneChat | src/server/chatservice.cpp:301-363 | every call is a chat step: dropped if empty, refused if not passing, otherwise acknowledged and sent on the connection of the recipient it names, or stored for that recipient if it has none |
| OneChat.ChatEffect | src/server/chatservice.cpp:341-361 | one step told from the request alone: what is acknowledged, sent on which connection, stored for whom, and refused |
| OneChat.DeliveredAsAddressed | src/server/chatservice.cpp:341-361 | over every run the messages acknowledged, sent and stored are, in order, those of the passing requests, each for the recipient named, with its own text, on the connection that recipient had at that step |
| OneChat.ChatConservesMessages | src/server/chatservice.cpp:341-361 | over every run of handlers one at a time the messages acknowledged with errno 0 are those sent plus those newly in table and failure queue, with multiplicity |
| OneChat.FriendTableRun | src/server/model/friendmodel.cpp:17-24 | over every run the table stays ordered and holds (a, b) exactly when a <= b and the two were made friends, in either argument order |
| OneChat.InsertIsSymmetric | src/server/model/friendmodel.cpp:17-24 | adding a friend has the same effect in either argument order |
| OneChat.GateOpensOneWay | src/server/chatservice.cpp:317-340 | a well-formed message passes if and only if the lookup works, the two were made friends and the sender's id is not the larger |
| OneChat.LargerFriendIsRefused | src/server/chatservice.cpp:317-340 | for every two ids one of which adds the other, the message of the smaller passes and the message of the larger is refused |
| OneChat.OnlyFriendsReachEachOther | src/server/chatservice.cpp:333-340 | after any run nothing is delivered or stored between ids never made friends |
| OneChatThreads.AcknowledgedIsSafe | src/server/chatservice.cpp:341-361 | for any number of threads, interleaved at the look-up and at every statement of the store: in every state the messages acknowledged with errno 0 are, with multiplicity, sent or in table or failure queue already |
| OneChatThreads.ConcurrentChatsConserve | src/server/chatservice.cpp:341-361 | under the same interleavings, whenever no message is on its way, acknowledged messages and initial rows are exactly those sent plus those in table and failure queue |
| OneChatThreads.SentAsAddressed | src/server/chatservice.cpp:333-357 | in every interleaved state what was sent, given to the store or is on its way are exactly the messages of the passing requests, for the recipients they name, with multiplicity |
| OneChatThreads.SentOnOwnConnection | src/server/chatservice.cpp:343-352 | whatever is sent goes out on a connection its recipient had |
| OneChatThreads.RefusedStep | src/server/chatservice.cpp:304-340 | a message is refused exactly if it is neither empty nor passing |
| Undelivered.StoredChatsAreNeverHandedOver | src/server/chatservice.cpp:131-136 | over every run of chats, forwarded messages and logins, at any number of nodes sharing table and lists, a login hands over forwarded messages only |
| Undelivered.StoredMessagesStay | src/server/chatservice.cpp:355-361 | in such runs the table and all failure queues hold exactly what they held before and every message stored since, with multiplicity, and the table only grows at its end |
| Undelivered.ForwardedArePushed | src/server/chatservice.cpp:42-45 | every forwarded message joins the list of its own recipient, in order, unless the Redis call fails |
| Undelivered.NothingIsHandedOver | src/server/chatservice.cpp:131-136 | in runs without forwarded messages, which nothing in the server publishes, no login hands over anything |
| OfflineList.OfflineLists.PushOfflineMessage | src/server/redisclient.cpp:148-158 | the call is the step Push, or nothing without a connection or when the call throws |
| OfflineList.OfflineLists.PopOfflineMessages | src/server/redisclient.cpp:160-172 | the call is the two steps Range and Del, the second possibly failing, or nothing when the read fails; what it returns is what is handed over |
| OfflineList.ListHandsOverOnce | src/server/redisclient.cpp:148-172 | for every user and every run of single Redis calls, any number of pops of one user in flight: handed over followed by what is left is the push history in every state, if and only if every successful delete finds the list as its own read found it and every failed one had read nothing |
| OfflineList.HandOverStep | src/server/redisclient.cpp:164-169 | the same for one call: only a delete can break the history, exactly when the list is no longer as read, or when it fails after reading something |
| OfflineList.AtomicPopKeepsHistory | src/server/chatservice.cpp:131-136 | a pop with nothing in between has handed over every message pushed so far, in push order |
| OfflineList.PushInBetweenIsLost | src/server/redisclient.cpp:165-166 | a message pushed between the two calls ends up neither handed over nor in the list |
| OfflineList.OverlappingPopsHandOverTwice | src/server/redisclient.cpp:165-166 | two overlapping pops hand over the whole list twice, with no call failing |
| OfflineList.FailedDeleteHandsOverTwice | src/server/redisclient.cpp:166-169 | after a failed delete the next pop hands over the whole list again |
| Handshake.HandshakeNeverDrifts | src/client/main.cpp:85-138 | requests in flight, acknowledgements in flight and the semaphore add up to one while the main thread waits and to zero otherwise, in every reachable state; a waiting login never sees the success of an earlier one |
| Handshake.WakesWithItsOwnOutcome | src/client/main.cpp:101-138 | when the main thread wakes nothing is left in flight; from a login it reads the outcome of that very request and enters the main menu exactly on success, from a register it returns to the menu whatever the flag says |

## Left out

- muduo, JSON and TCP framing: foreign libraries; messages are datatypes, one frame per read, and a send succeeds.
- SQL text, foreign keys and the driver: tables are sets or sequences, a statement succeeds or throws with no effect.
- `CHECK (userid < friendid)` of the Friend table (sql/init_chat.sql:27): a server that enforces it fails the insert of a user as its own friend, which the model also lets succeed.
- The friend-list cache of `login`: never invalidated and not part of the response on a hit, so there is nothing to agree with.
- The live delivery in the "to" branch of the inbox callback: no live caller publishes to a node inbox; its locks and its storing of messages are modelled.
- A null pushed by `initConnection` when a connection cannot be created: the pool is taken to hold connections only.
- The unlocked size check in `MySQLConnectionPool::getConnection`: taken as one atomic step.
- Interleavings inside presence handlers: `Presence` takes map and hash updates of one handler as one step and node ids as distinct; a lookup that is out of date by then is covered, as a login whose lookup told nothing.
- Readers of the group lock: `NodeSystem` lets writers run beside them, which allows more interleavings than the program.
- An exception that ends the subscriber thread early, and a pool that never lends it a connection.
- Starvation on pool connections: only lock waits are shown free of deadlock; `acquire` waits are timed.
- `UserModel`, registration, configuration, menus and printing: same shapes as what is modelled, or user interface.
- Exceptions other than those the catch clauses name.
