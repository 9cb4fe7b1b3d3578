# tgloggerd: a verified model

tgloggerd turns Telegram updates into jobs on one event loop, runs the jobs on two bounded thread pools,
and applies each job as a database transaction that keeps history tables. This project models those three
parts in Dafny and proves what they promise on every run.

**Concurrent runtime.** `ThreadPool` and `ConnectionPool` are step systems: every thread has a program
counter, and a step is one lock acquisition, one critical section up to the point where it unlocks or
waits, one notification issued after unlocking, or a spurious wakeup. `WaitTally` holds the counting
argument that both share (waiting, awakened, owed notifications, available units). `Monitors` holds the
critical sections themselves as methods on the fields the locks guard. `Runtime` puts two thread pools, the
loop thread and the shutdown sequence together; `RuntimeOrder` and `RuntimeProgress` prove what reaches the
pools in which order, that the two-stage drain loses nothing, and that it ends.

**Persistence.** `DiffLog` decides once when a log written by diffing replays to the table it describes.
`Usernames` and `GroupAdmins` are the procedures that do so, `UsernameHistory` and `GroupAdminHistory` what
their logs are worth. `Messages` is one machine for both message tables; `MessageTables` proves that the
private and the group procedures run it, `MessageStore` and `MessageHistory` what its runs keep. `Profiles`
and `ProfileTables` do the same for names, phone numbers, titles, descriptions, photos and bios.

**Event loop.** `EventLoop` gives the effect of every update, answer and timer on the state of the client,
with the stored continuations as a datatype. `EventTraffic` lists for each event the jobs emitted, the queries
sent and the continuations stored, from what was known before it, and `EventMemory` what is known after it;
`EventAnswers` proves that whatever waits for an answer asked for it. `EventLoopView` and `EventLoopEffects` reduce
the events to their effect on the protocols, `EventLoopProtocols` and `AdminPolling` prove those, and `EventScript`
proves that every job is emitted after the saves it depends on. `EventLoopImpl` is the class with the methods of the source; its
methods compute the functions of `EventLoop`, and so its `Valid()` is all of these invariants at once. `System`
composes the layers: event loop, pools and tables, with jobs that may fail.

## What the code does not keep

Where the repository's own reading is stronger than its code, the model follows the code, gives an input
that shows the difference, and says exactly when the stronger reading holds.

- A username that one snapshot lists twice, the last time as it already was, leaves a log that replays to
  something else: two syncs from empty tables do it (`UsernameHistory.RepeatedNameBreaksReplay`). The log stays
  replayable if and only if no listed name returns in this way (`UsernameHistory.SyncKeepsHistory`). The same
  holds for administrators (`GroupAdminHistory.RepeatedAdminBreaksReplay`, `GroupAdminHistory.SyncKeepsHistory`).
- `PrivateMessage.cpp:27-31` describes deletion as setting a flag. A deletion of an already deleted message
  falls through to the full upsert and blanks the stored content without a snapshot; a notice keeps the
  content if and only if the message is still live or had none (`MessageHistory.RepeatedDeletionBlanks`).
- An edit whose date has not advanced overwrites the live row without a snapshot
  (`MessageHistory.StaleEditLosesVersion`). All versions survive if and only if every observed change of
  content advanced the edit date (`MessageHistory.VersionsCompleteIff`).
- `is_forwarded` can return to 0 while the forward info stays (`MessageHistory.FlagFallsBack`). The flag implies
  the info; it tells whether there is one if and only if the last observation still carries a forward info or
  none ever did (`MessageHistory.FlagTellsInfoIff`).
- `TDLib.cpp:995-1021` and `1211-1253` mean to save the chat and the users of a message before the message. For
  a user or a group that the loop does not know yet, the helpers only send a request, and the message is saved
  first. With the first message of a run none of them is saved at all (`EventScript.FirstMessageSavedAlone`). Each is
  saved before the message if and only if the loop knew it (`EventScript.ParentsSavedIff`,
  `EventScript.FetchedParentsSavedIff`).
- `TDLib.cpp:1062-1077` takes a fetched reply target for saved. The target's group may be unknown
  (`EventScript.UnknownGroupReached` is a run that leads there); the foreign key then rejects that save, while the
  target stays in the dedup set and the link is emitted as fetched (`System.FetchedReplyRejected`). The save meets the
  key if and only if the loop knew the chat when the target arrived (`System.FetchedSaveAllowedIff`); a rejected target
  gets a row only from a save that comes after a save of its chat (`System.RowOnlyAfterChat`). A failed job is
  logged and rolled back, and a later link finds its row if and only if some save of that row was committed
  (`System.ExecutedLinksFindRows`).
- The id of the replied message is resolved when the link runs and not again: linking a reply just before instead of
  just after the replied message is first saved leaves it empty (`MessageStore.LinkOrderMatters`). Two interleavings of the same upserts
  and links end in the same row if and only if no reply of the row is linked, or the last one resolves in both
  interleavings or in neither (`MessageStore.Confluent`).

## Model

| member | source | states |
|---|---|---|
| `WaitTally.CoveredKept` | src/tgloggerd/ThreadPool.cpp:27-90 | Whatever a thread does to a condition variable (wait, pay a notification, use a wakeup, free a unit), available units stay covered by pending wakeups while anybody waits |
| `ThreadPool.StepKeepsInv` | src/tgloggerd/ThreadPool.cpp:27-90 | Mutual exclusion, FIFO queue within its cap, tickets carried by one worker or finished once, and no lost wakeup are kept by every step, spurious wakeups included |
| `ThreadPool.NoLostWakeupOnAnyRun` | src/tgloggerd/ThreadPool.cpp:32-43 | Before draining: a waiting poster means free slots are at most owed notifications plus awakened posters; a waiting worker means queued jobs are at most awakened workers. While draining: a waiter means its notify_all is still owed |
| `ThreadPool.InOrderKept` | src/tgloggerd/ThreadPool.cpp:62-90 | A pool with one worker finishes its jobs in the order in which they were accepted |
| `ThreadPool.StuckOnlyWhenBusy` | src/tgloggerd/ThreadPool.cpp:27-90 | If no thread inside the pool can step: a waiting worker means an empty queue, a waiting poster a full queue with every worker running a job, and a blocked shutdown a running job |
| `ThreadPool.StepDecreases` | src/tgloggerd/ThreadPool.cpp:46-90 | Every step the pool takes by itself decreases a measure, so shutdown finishes |
| `ThreadPool.OtherStepsCost` | src/tgloggerd/ThreadPool.cpp:27-90 | A call from outside or a spurious wakeup raises the measure by a fixed amount at most |
| `Monitors.QueueMonitor.Post` | src/tgloggerd/ThreadPool.cpp:27-44 | The section waits exactly when the queue is at its nonzero cap and not draining, drops the job exactly when draining, and otherwise appends it: it is the Critical step of the step system |
| `Monitors.QueueMonitor.Take` | src/tgloggerd/ThreadPool.cpp:66-81 | The section takes the front job, waits if there is none, and leaves only when draining and empty |
| `Monitors.QueueMonitor.Drain` | src/tgloggerd/ThreadPool.cpp:46-51 | Only the draining flag changes, and both notify_all are owed afterwards |
| `Monitors.IdleMonitor.Acquire` | src/mysql/ConnectionPool.cpp:50-71 | The oldest idle connection is borrowed; without one a creation is counted before the lock is left; at the limit the caller waits |
| `Monitors.IdleMonitor.GiveUp` | src/mysql/ConnectionPool.cpp:62-67 | A failed creation gives its place back |
| `Monitors.IdleMonitor.Release` | src/mysql/ConnectionPool.cpp:74-84 | The connection goes to the end of the idle list and a notification is owed after unlocking |
| `Runtime.BaseKept` | src/tgloggerd/TgLoggerd.cpp:344-356 | Every move of the program keeps both pools' invariants, who uses which pool, and how far shutdown has come: serial_ starts draining only after every file worker has ended |
| `RuntimeOrder.SerialFlowAccepts` | src/tgloggerd/TgLoggerd.cpp:375-450 | A link job that serial_ accepts names the row of the very file job that the posting file worker is running; every other job comes from the event loop |
| `RuntimeOrder.LinksNameTheirRows` | src/tgloggerd/TgLoggerd.cpp:427-438 | On every run each accepted link names the row of the file job whose ticket it carries |
| `RuntimeOrder.OrderedKept` | src/tgloggerd/TgLoggerd.cpp:206-332 | Every move keeps: the pools hold exactly the jobs the loop finished posting, in order, no link is accepted twice, and each row's save precedes its file job and its link |
| `RuntimeOrder.ExecutedInOrder` | src/tgloggerd/TgLoggerd.cpp:184-190 | What serial_ has run is a prefix of what it accepted |
| `RuntimeOrder.RowBeforeLinkOnAnyRun` | src/tgloggerd/TgLoggerd.cpp:369-450 | In every interleaving each file link job ends after the save of its row, although it travels through two pools, and each reply link after the saves it names |
| `RuntimeOrder.DrainLosesNothing` | src/tgloggerd/TgLoggerd.cpp:350-356 | When start() returns, every accepted job of both pools has run exactly once, none was dropped, the pools accepted exactly the jobs the loop posted in order, and for every file job that posted its link, the link of that job's own row has run exactly once |
| `RuntimeOrder.BoundedAndLossless` | src/tgloggerd/ThreadPool.cpp:31-43 | On every run neither queue exceeds a nonzero cap, neither pool refuses a job, and what was accepted is what was taken followed by the queue |
| `RuntimeProgress.NeverStuck` | src/tgloggerd/TgLoggerd.cpp:344-356 | Until start() returns some thread can step without a spurious wakeup, also with file workers blocked on a full serial_ |
| `RuntimeProgress.MoveRemaining` | src/tgloggerd/TgLoggerd.cpp:344-356 | Every move but a spurious wakeup decreases the remaining work of the program |
| `RuntimeProgress.StartAlwaysReturns` | src/tgloggerd/TgLoggerd.cpp:344-356 | Every run is finite up to spurious wakeups, and one that cannot go on has returned from start() |
| `ConnectionPool.StepKeepsInv` | src/mysql/ConnectionPool.cpp:46-84 | Conservation, exclusive use of connections and no lost wakeup are kept by every step, failing creations included |
| `ConnectionPool.PoolOnAnyRun` | src/mysql/ConnectionPool.cpp:46-84 | On every run: created = idle + borrowed + being created, at most the pool size; no connection is used twice at once; a waiter means idle connections plus uncreated capacity are at most owed notifications plus awakened waiters |
| `ConnectionPool.WaitersOnlyWhenExhausted` | src/mysql/ConnectionPool.cpp:57-71 | If nothing can step and somebody waits, every connection the pool may have is in use or being created |
| `ConnectionPool.Size` | src/tgloggerd/TgLoggerd.cpp:150-157 | At least one file thread and at least one connection more than file threads, larger settings being respected |
| `ConnectionPool.NeverWaits` | src/mysql/Database.cpp:40-58 | With as many connections as threads, each holding one at a time, no acquire() reaches its wait on any run |
| `ConnectionPool.WritersNeverWait` | src/tgloggerd/TgLoggerd.cpp:145-157 | With pool_size at least file threads + 1, no file worker and not the serial worker ever waits for a connection, whatever the main thread did with the pool before it started them |
| `DiffLog.SyncReplays` | src/tgloggerd/models/User.cpp:222-267 | For all inputs: the log of a sync replays to the new table if and only if no listed key is listed as something else and last as it already was |
| `DiffLog.DistinctIsLoud` | src/tgloggerd/models/User.cpp:222-240 | With distinct keys that never happens |
| `DiffLog.ResyncIsQuiet` | src/tgloggerd/models/User.cpp:222-240 | Syncing to what the table shows logs nothing |
| `Usernames.UsernameTable.Sync` | src/tgloggerd/models/User.cpp:176-268 | One sync: events for listed names that differ, then removals in any order; names gone are released in place, listed ones claimed in list order |
| `Usernames.UsernameTable.LogListed` | src/tgloggerd/models/User.cpp:222-240 | Added, kind_changed or reordered is logged against what the owner held, in list order |
| `Usernames.UsernameTable.ReleaseGone` | src/tgloggerd/models/User.cpp:242-252 | Exactly the held names that are not listed are logged as removed, each once, and lose this owner but keep kind and position |
| `Usernames.UsernameTable.UpsertListed` | src/tgloggerd/models/User.cpp:254-267 | The listed names are claimed one after the other, whoever owned them |
| `Usernames.UsernameTable.CollectLists` | src/tgloggerd/models/User.cpp:202-215 | The list keeps all entries in order, the map the last of each name |
| `UsernameHistory.SyncKeepsHistory` | src/tgloggerd/models/User.cpp:176-268 | From a consistent history a sync by any owner, names taken from others included and for any removal order, leaves a history that replays to owner, kind and position of every owned name if and only if no name returns silently |
| `UsernameHistory.RunKeepsHistory` | src/tgloggerd/models/Group.cpp:118-199 | The history is replayable after every sync of a sequence by any owners if and only if no name returns silently in any of them |
| `UsernameHistory.HistoryIsComplete` | src/tgloggerd/models/User.cpp:222-267 | From empty tables, with names distinct within each snapshot, the event log replayed in order gives exactly the owned usernames |
| `UsernameHistory.SyncIsAccurate` | src/tgloggerd/models/User.cpp:222-252 | With distinct names every event is true of what the replay says just before it: added was not held, kind_changed differs in kind, reordered in position only, removed was held |
| `UsernameHistory.RunIsAccurate` | src/tgloggerd/models/User.cpp:222-252 | So from empty tables on every event ever logged is true |
| `UsernameHistory.SyncedKinds` | src/tgloggerd/models/User.cpp:202-215 | After a sync the i-th active, disabled or collectible name is held with that kind at position i, unless it is named again later |
| `UsernameHistory.RepeatedNameBreaksReplay` | src/tgloggerd/models/User.cpp:213-240 | From empty tables, a snapshot with a name and then one that lists it as active and as it was break the replay |
| `UsernameHistory.SyncedRow` | src/tgloggerd/models/User.cpp:242-267 | A listed name ends as last listed, a held and unlisted one is released keeping kind and position, any other row is untouched |
| `UsernameHistory.SyncRefinesReleaseAllThenClaim` | src/tgloggerd/models/Group.cpp:179-198 | For all inputs, duplicates included, the incremental sync has the effect of releasing everything the owner holds and claiming the new lists in order |
| `UsernameHistory.ResyncIsSilent` | src/tgloggerd/models/User.cpp:222-267 | Repeating a sync of distinct names logs nothing and changes nothing |
| `GroupAdmins.AdminTable.Sync` | src/tgloggerd/models/GroupAdmin.cpp:94-176 | One sync of a group: every listed admin is upserted and logged if new or changed, every stored one that is not listed is logged with its state and deleted |
| `GroupAdmins.AdminTable.HasChanged` | src/tgloggerd/models/GroupAdmin.cpp:126-139 | Changed exactly if status, title or one of the 17 rights differs; inviter and joined date do not count |
| `GroupAdmins.AdminTable.UpsertListed` | src/tgloggerd/models/GroupAdmin.cpp:120-155 | The table and log after the additions and updates, in list order |
| `GroupAdmins.AdminTable.RemoveGone` | src/tgloggerd/models/GroupAdmin.cpp:157-175 | Exactly the stored admins that are not listed are deleted, each with one removed entry carrying its old state |
| `GroupAdminHistory.SyncKeepsHistory` | src/tgloggerd/models/GroupAdmin.cpp:94-176 | The history stays replayable if and only if no user is listed with another state and last with the stored one |
| `GroupAdminHistory.RepeatedAdminBreaksReplay` | src/tgloggerd/models/GroupAdmin.cpp:120-155 | From empty tables, a list with an administrator and then one that lists the same user under another title and as before break the replay |
| `GroupAdminHistory.SyncIsAccurate` | src/tgloggerd/models/GroupAdmin.cpp:120-175 | With distinct users every entry is true of what the replay says just before it: added was absent, updated differs, removed carries exactly that state |
| `GroupAdminHistory.SyncedRow` | src/tgloggerd/models/GroupAdmin.cpp:57-92 | After a sync exactly the listed users are administrators of the group, an owner as creator, with title, rights, inviter and joined date as last listed |
| `GroupAdminHistory.OtherGroupsUntouched` | src/tgloggerd/models/GroupAdmin.cpp:99-108 | A sync changes no row and logs no entry of another group |
| `GroupAdminHistory.HistoryIsComplete` | src/tgloggerd/models/GroupAdmin.cpp:94-176 | After any sequence of syncs with distinct users the history replays to exactly the stored status, title and rights, every earlier stored state is the replay of a prefix, and every entry is accurate |
| `GroupAdminHistory.SyncKeepsAdmins` | src/tgloggerd/models/GroupAdmin.cpp:47-55 | A sync with a non-empty list leaves every group that has admins with some |
| `GroupAdminHistory.EmptyListErases` | src/tgloggerd/models/GroupAdmin.cpp:52-54 | A sync with an empty list leaves its group without admins |
| `MessageTables.MessageLog.SnapshotIfChanged` | src/tgloggerd/models/Message.cpp:63-111 | A snapshot of the old content and file under the new edit date, exactly if the date advanced and type or text changed |
| `MessageTables.MessageLog.InsertForwardInfo` | src/tgloggerd/models/Message.cpp:113-156 | The info of a message is written once and never again |
| `MessageTables.PrivateMessages.Upsert` | src/tgloggerd/models/PrivateMessage.cpp:33-186 | The private tables take the step of the abstract machine; the snapshot keeps content and file of the row as they were |
| `MessageTables.PrivateMessages.SetMessageFile` | src/tgloggerd/models/PrivateMessage.cpp:188-194 | Only the file column of an existing row changes |
| `MessageTables.PrivateMessages.SetMessageReply` | src/tgloggerd/models/PrivateMessage.cpp:196-215 | The reply columns of an existing row name the replied message, with its id if it is in this table |
| `MessageTables.GroupMessages.Upsert` | src/tgloggerd/models/GroupMessage.cpp:29-167 | The group tables take the step of the same machine, the sender columns projected to one sender |
| `MessageTables.GroupMessages.SetMessageFile` | src/tgloggerd/models/GroupMessage.cpp:169-175 | As for private messages |
| `MessageTables.GroupMessages.SetMessageReply` | src/tgloggerd/models/GroupMessage.cpp:177-196 | As for private messages |
| `MessageStore.SoundOnAnyRun` | src/tgloggerd/models/PrivateMessage.cpp:79-185 | On any run ids are unique, is_forwarded implies a forward info, and every edit and every forward info belongs to an existing message |
| `MessageStore.RunExtends` | src/tgloggerd/models/Message.cpp:113-156 | On any run messages keep their ids, edits are only appended, and a forward info never changes |
| `MessageStore.OtherMessagesUntouched` | src/tgloggerd/models/PrivateMessage.cpp:62-67 | An event about one message leaves the row, edits and forward info of every other alone |
| `MessageStore.LinksSurviveUpserts` | src/tgloggerd/models/PrivateMessage.cpp:35-56 | From the first insert on, file and all three reply columns are those of the last link, whatever is upserted in between; the id is the target's if the target had a row when that link ran |
| `MessageStore.Confluent` | src/tgloggerd/models/GroupMessage.cpp:31-56 | Two interleavings of the same upserts and the same links end in the same row, resolved id included, if and only if no reply of the row is linked or the last one resolves in both or in neither; the file is the last one linked |
| `MessageStore.LinkOrderMatters` | src/tgloggerd/models/GroupMessage.cpp:177-196 | The same save and the same reply link in the two orders leave the id resolved in one row and empty in the other |
| `MessageStore.ConfluentButId` | src/tgloggerd/models/GroupMessage.cpp:31-56 | Every column but the resolved id, and all forward infos, are the same in any two interleavings |
| `MessageHistory.StepKeepsKept` | src/tgloggerd/models/PrivateMessage.cpp:122-176 | Every event keeps: the versions are complete if all observed changes advanced the edit date, and otherwise fewer than were observed |
| `MessageHistory.VersionsCompleteIff` | src/tgloggerd/models/Message.cpp:70-110 | On every run, links, deletions and other messages interleaved: snapshots followed by the live content are the observed contents without consecutive repeats if and only if every observed change of content advanced the edit date |
| `MessageHistory.EditRowsAreEditsSeen` | src/tgloggerd/models/Message.cpp:83-107 | On every run the edit rows of a message are exactly one for each observation that advanced the date and changed type or text: the content observed before it, the file linked by then, and the date it came with |
| `MessageHistory.RowIsLastObservation` | src/tgloggerd/models/PrivateMessage.cpp:162-184 | Sender, direction, dates, content and is_forwarded of the live row are those of the last observation; the forward info is the first one observed |
| `MessageHistory.HasRowIfUpserted` | src/tgloggerd/models/PrivateMessage.cpp:79-120 | On every run a message has a row if and only if it was ever upserted alive |
| `MessageHistory.DeletedIfLastUpsert` | src/tgloggerd/models/PrivateMessage.cpp:122-160 | On every run a message is marked deleted if and only if what was last upserted of it was a deletion |
| `MessageHistory.FlagTellsInfoIff` | src/tgloggerd/models/PrivateMessage.cpp:162-184 | On every run is_forwarded equals the presence of a forward info if and only if the last observation carries one or none ever did |
| `MessageHistory.FlagFallsBack` | src/tgloggerd/models/PrivateMessage.cpp:162-184 | A forwarded message received again without its forward info loses the flag and keeps the info |
| `MessageHistory.DatesKeptIff` | src/tgloggerd/models/Message.cpp:70-110 | Snapshot dates stay strictly increasing and at most the live edit date if and only if an observation is not older than the last snapshot |
| `MessageHistory.NoVersionIsLost` | src/tgloggerd/models/PrivateMessage.cpp:79-176 | With non-decreasing edit dates, equal dates carrying equal content and only live messages deleted, no version is lost and snapshot dates are in order |
| `MessageHistory.RepeatedDeletionBlanks` | src/tgloggerd/models/PrivateMessage.cpp:131-176 | A deletion notice keeps the content if and only if the message is live or had none; it never leaves a snapshot |
| `MessageHistory.StaleEditLosesVersion` | src/tgloggerd/models/Message.cpp:75-76 | An edit with a date that has not advanced replaces the content without a snapshot |
| `Profiles.HistoryIsLossless` | src/tgloggerd/models/User.cpp:127-160 | On any run, entities interleaved: the log of a name, phone number, title, description or photo starts with the first value and then, with the live value, is everything observed without repeats; the bio's log and live value are what was observed after an initial "" |
| `Profiles.NotedLossless` | src/tgloggerd/models/Group.cpp:52-75 | One more value keeps that, the replaced value being logged exactly when it differs |
| `Profiles.NotedFromLossless` | src/tgloggerd/models/User.cpp:305-316 | The same for the bio, which has no first entry |
| `ProfileTables.UserTable.UpsertUser` | src/tgloggerd/models/User.cpp:88-164 | First-seen name and phone number are logged, later the value replaced, each attribute by itself; photo and bio are untouched |
| `ProfileTables.UserTable.TrackProfilePhotoChange` | src/tgloggerd/models/User.cpp:270-295 | The first photo or the replaced one is logged, nothing for an unknown user or the same photo |
| `ProfileTables.UserTable.SetUserProfilePhoto` | src/tgloggerd/models/User.cpp:166-174 | Photo and its log change together, and not at all for an unknown user |
| `ProfileTables.UserTable.UpsertUserFullInfo` | src/tgloggerd/models/User.cpp:297-339 | A changed bio is logged before it is replaced, and nothing is written for an unknown user |
| `ProfileTables.GroupTable.UpsertGroup` | src/tgloggerd/models/Group.cpp:40-79 | As for users, with title and description |
| `ProfileTables.GroupTable.TrackGroupPhotoChange` | src/tgloggerd/models/Group.cpp:91-116 | As for users |
| `ProfileTables.GroupTable.SetGroupPhoto` | src/tgloggerd/models/Group.cpp:81-89 | As for users |
| `EventLoopImpl.Impl.constructor` | src/tgloggerd/TDLib.cpp:1742-1746 | The object is valid; a batch below one counts as one, and polling is enabled by a positive interval |
| `EventLoopImpl.Impl.Send` | src/tgloggerd/TDLib.cpp:590-599 | A continuation is stored under an id that no other one has |
| `EventLoopImpl.Impl.ProcessResponse` | src/tgloggerd/TDLib.cpp:602-618 | Any update or answer keeps the object valid; an answered query has no continuation afterwards, and an answer without one changes nothing |
| `EventLoopImpl.Impl.ValidMeans` | src/tgloggerd/TDLib.cpp:602-618 | A valid object has at most one alarm outstanding, a poll queue without repeats that holds every tracked chat with known group, at most 1000000 remembered reply targets, a free next query id, and for each stored continuation the query it fits |
| `EventLoopImpl.Impl.MarkReplyResolved` | src/tgloggerd/TDLib.cpp:987-993 | The target is remembered, the set stays within its cap, and nothing is forgotten below the cap |
| `EventLoopImpl.Impl.HandleDeleteMessages` | src/tgloggerd/TDLib.cpp:1116-1142 | One deletion job for each id, in order |
| `EventLoopImpl.Impl.EmitGroupAdmins` | src/tgloggerd/TDLib.cpp:1538-1558 | The known ones among the administrators are saved as users, and then all administrators of the list, in order and as often as received, are handed over in one sync, unless there is none |
| `EventLoopImpl.Impl.PollAdminBatch` | src/tgloggerd/TDLib.cpp:1585-1623 | The loop turns the queue and sends the refresh queries of one batch |
| `EventLoopImpl.Impl.Close` | src/tgloggerd/TDLib.cpp:1758-1763 | The object is closing from then on, so that no alarm is armed again, and stays valid |
| `EventTraffic.StepTraffic` | src/tgloggerd/TDLib.cpp:602-772 | For every event: exactly which jobs are emitted, which queries sent and which continuations stored for them, in order, from what was known before |
| `EventTraffic.StepSyncs` | src/tgloggerd/TDLib.cpp:1518-1557 | A member list that answers the request for a chat, or comes with the info of a polled basic group, makes one sync of that chat, with every member that is an administrator, as often as received and in order; without any, and on every other event, there is no sync |
| `EventMemory.StepUsers` | src/tgloggerd/TDLib.cpp:1227-1253 | Exactly the users that an update or an answer brings become known, and none is forgotten |
| `EventMemory.StepFlags` | src/tgloggerd/TDLib.cpp:775-866 | When the client counts as authorized, stopped, closing, and polling |
| `EventMemory.StepGroups` | src/tgloggerd/TDLib.cpp:1410-1463 | What is known of each group after each event; a supergroup known to be a channel stays one whatever its chat says |
| `EventMemory.StepTracks` | src/tgloggerd/TDLib.cpp:1477-1483 | A chat starts to be polled if and only if the chat list brings it as one of a group not known before; it goes to the rear of the queue |
| `EventMemory.ListedIsAsked` | src/tgloggerd/TDLib.cpp:1481-1483 | The members of a supergroup are then asked for at once, and the answer is taken for that chat |
| `EventMemory.StepResolved` | src/tgloggerd/TDLib.cpp:987-993 | A reply target is remembered if and only if its fetch brought it; below the cap nothing is forgotten |
| `EventMemory.StepDownloads` | src/tgloggerd/TDLib.cpp:1366-1394 | A missing file is waited for by whoever came with it last; a finished one is stored for the user, else the group, else the message that waits for it, and is no longer waited for |
| `EventAnswers.AskedOnAnyRun` | src/tgloggerd/TDLib.cpp:1056-1077 | On every run the n-th query has id n, and each stored continuation fits the query under its id: a reply link waits for its replied message, a tick for an alarm, administrators for the members of the chat's own group |
| `EventLoopEffects.StepMoves` | src/tgloggerd/TDLib.cpp:602-772 | Every event has one of fourteen effects on the protocol part: the event loop refines a small protocol machine |
| `EventLoopEffects.PollEffect` | src/tgloggerd/TDLib.cpp:1585-1623 | A tick turns the queue by some number of chats, evicted ones dropped, and touches nothing else of the protocols |
| `EventLoopProtocols.OneAlarmOnAnyRun` | src/tgloggerd/TDLib.cpp:1560-1583 | At most one alarm is outstanding on any run, and exactly one while polling has started and the client is neither stopped nor closing |
| `EventLoopProtocols.QueueOnAnyRun` | src/tgloggerd/TDLib.cpp:1594-1612 | The poll queue is duplicate-free, tracked chats are queued, and both lookups succeed for every queued chat |
| `EventLoopProtocols.RepliesOnAnyRun` | src/tgloggerd/TDLib.cpp:1023-1077 | Of each reply, as many messages were handled as links emitted plus fetches outstanding; a top-level message causes at most 128 fetches, all of them together at most 128 times as many; the dedup set stays within its cap |
| `EventLoopProtocols.InvariantKept` | src/tgloggerd/TDLib.cpp:602-772 | Every effect keeps all protocol invariants |
| `AdminPolling.TickIsFair` | src/tgloggerd/TDLib.cpp:1585-1623 | In a tick no chat is refreshed twice, at most a batch is, only tracked ones, and exactly their queries and the next alarm are sent |
| `AdminPolling.TickAdvances` | src/tgloggerd/TDLib.cpp:1594-1605 | A tracked chat that a tick does not refresh moves forward by a full batch |
| `AdminPolling.BoundedWaiting` | src/tgloggerd/TDLib.cpp:1594-1605 | With the protocol invariants, a chat at position p is refreshed within p / batch + 1 ticks or evicted first |
| `AdminPolling.BoundedWaitingOnAnyRun` | src/tgloggerd/TDLib.cpp:1585-1623 | In every reachable state a chat at position p is refreshed within p / batch + 1 ticks or evicted first, whatever arrives or is evicted meanwhile |
| `AdminPolling.ListedGroupIsPolled` | src/tgloggerd/TDLib.cpp:1470-1623 | From the event on with which the chat list first brings a group, its chat is refreshed within as many ticks as the chats queued before it take, or evicted first |
| `AdminPolling.MissesAreDenials` | src/tgloggerd/TDLib.cpp:1505-1515 | The miss counter is the number of 400/403 errors since the last member list |
| `AdminPolling.EvictedAfterThreeDenials` | src/tgloggerd/TDLib.cpp:1505-1513 | On every run a tracked chat has had fewer than three such errors since its last member list, and it leaves the poll set on an event if and only if that event is the third |
| `AdminPolling.EvictedForGood` | src/tgloggerd/TDLib.cpp:1464-1484 | A chat that has left the poll set is never tracked again on any later run, since its group stays known |
| `EventScript.ScriptOnAnyRun` | src/tgloggerd/TDLib.cpp:951-1077 | On any run a file job and a reply link come after the save of their message, a link after a fetch or a dedup hit also after the save of the replied message, and no admin list is synced empty |
| `EventScript.StepKeepsScript` | src/tgloggerd/TDLib.cpp:602-772 | Every event keeps that, with what downloads and fetches in flight will emit, and with users_ and chat_to_group_ holding exactly the users and groups saved |
| `EventScript.ReplyFetchedKeeps` | src/tgloggerd/TDLib.cpp:1062-1077 | A fetched target is marked resolved before it is saved, yet when the continuation has run everything marked is saved and the link comes after both saves |
| `EventScript.FileArrivedKeeps` | src/tgloggerd/TDLib.cpp:1366-1394 | A finished download of any of the three pending tables emits a file job after the save of its row |
| `EventScript.AnswersRunOnce` | src/tgloggerd/TDLib.cpp:612-617 | Each stored continuation runs at most once: its id is never again among the handlers, whatever follows |
| `EventScript.ParentsSavedIff` | src/tgloggerd/TDLib.cpp:1211-1253 | When a message is handled, its chat, sender and forward origins are saved before it exactly if the loop knew them |
| `EventScript.FetchedParentsSavedIff` | src/tgloggerd/TDLib.cpp:995-1021 | The same for a message that was fetched as a reply target |
| `EventScript.FirstMessageSavedAlone` | src/tgloggerd/TDLib.cpp:1211-1253 | The first message of a run is saved with no save of its chat, sender or forward origin |
| `EventScript.FetchedFromUnknownChat` | src/tgloggerd/TDLib.cpp:1062-1077 | A target from an unknown chat is saved without any save of the chat so far, remembered as resolved, and linked as fetched |
| `EventScript.UnknownGroupReached` | src/tgloggerd/TDLib.cpp:1023-1061 | Two updates lead there from the initial state |
| `System.LinksAfterRows` | src/tgloggerd/TgLoggerd.cpp:277-332 | Whatever Telegram delivers and however the threads interleave, serial_ ends each link job after the saves of the rows it links |
| `System.LinksFindRows` | src/tgloggerd/models/PrivateMessage.cpp:188-215 | With jobs that may fail and be rolled back, a committed file or reply link finds each row it names if and only if the row was there or some earlier save of it was committed; otherwise it changes nothing, or leaves the id empty. A replied message kept in the other of the two tables counts as having no row |
| `System.RowIffCommitted` | src/mysql/Database.cpp:160-187 | A message has a row if and only if it had one before or some save of it was committed |
| `System.ExecutedLinksFindRows` | src/tgloggerd/TgLoggerd.cpp:277-332 | Event loop, pools and tables together: whatever is delivered, however threads interleave and whichever jobs fail, each link serial_ runs comes after the jobs that save its rows, and finds each row if and only if a save of it was committed |
| `System.TriedSaveCommitted` | src/tgloggerd/TgLoggerd.cpp:277-299 | A row whose tried saves did not fail is there, so that then no link misses it |
| `System.FetchedSaveAllowedIff` | src/tgloggerd/TDLib.cpp:1062-1077 | The save of a fetched target comes after a save of its chat, as the foreign key demands, if and only if the loop knew the chat when the target arrived |
| `System.SaveAllowedIff` | src/tgloggerd/TDLib.cpp:951-985 | The same for a new or edited message |
| `System.FetchedRowPossibleIff` | src/tgloggerd/TDLib.cpp:1062-1077 | Among all jobs emitted until a fetched target has been handled, some save of it comes after a save of its chat if and only if the loop knew the chat |
| `System.RowOnlyAfterChat` | migrations/000007_create_group_messages_tables.up.sql:79-81 | For any jobs, whichever fail: a message has a row only if some save of it comes after a save of its chat |
| `System.RowPossibleAfterChat` | migrations/000006_create_private_messages_tables.up.sql:67-69 | Conversely, if some save does, the key to the chat allows the message a row |
| `System.FetchedReplyRejected` | migrations/000007_create_group_messages_tables.up.sql:79-81 | If message saves respect the key to their chat, the fetched target of an unknown chat has no row after the jobs emitted by then, although it is remembered as resolved and its link is emitted as fetched |
| `System.AdminsSurvive` | src/tgloggerd/TDLib.cpp:1531-1534 | Across event loop, pools and tables: a group whose stored admin set is non-empty keeps it non-empty on every run, whatever fetches fail |

## Left out

- Threads are a step relation on values, not objects with locks: Dafny methods cannot interleave. `Monitors` gives the critical sections on the guarded fields.
- Jobs are assumed to terminate, and spurious wakeups to be finitely many between other steps, where termination is claimed.
- The text of SQL statements, JDBC binding, and failures inside commit, rollback and setAutoCommit: a transaction is one atomic update, and one that fails changes nothing.
- Why a job fails: any job may, and of the foreign keys only that of a message to its chat is used, in `System.RowOnlyAfterChat` and `System.FetchedReplyRejected`; for the others `EventScript.ParentsSavedIff` gives the order of the saves.
- `upsertFile` runs in parallel and depends on the isolation of the database; a file job either fails or yields some file id.
- Username collation: names are canonical keys, as the UNIQUE key compares them.
- The three pending-download tables are overwritten when one file id is requested twice, so "every attachment gets linked" is not claimed.
- Mapping of td_api objects (`map_user`, `map_admin`, `extract_*`, `reply_target` beyond its two zero cases) and the enum spellings of `Message.cpp`: the model starts from the mapped values.
- Message contents on the event loop: a job names the rows it writes, and the tables are modelled apart; `System.LinksFindRows` relates the two by key.
- All handlers that `TgLoggerd::start` registers before its loop are taken as registered; the legacy text handler only logs.
- Query ids are unbounded, so wrap-around after 2^64 queries is not modelled; negative environment values are outside the ranges meant.
- Two things are taken from Telegram: a chat id belongs to one group, and getMessage returns the message asked for (`EventLoop.Plausible`).
- `updateMessageContent` is ignored by the source; authentication prompts are reduced to the query they send.
- Hashing, copying and naming of downloaded files, logging, the C interface and `main`.
