# The message pipeline, verified

A Dafny model of a one-to-one chat backend: how a message and its receipts get from a request into
PostgreSQL, from the transactional outbox onto Redis, and from there into the event queue of the
right WebSocket, together with the cursors and pages by which a client catches up. `dafny verify
dfyconfig.toml` checks everything.

## How the model is built

The four layers are step machines, and a fifth joins them. A step is what runs between two points at
which something else can run: one SQL statement, one row lock, one commit, one publication, or the code
between two `await`s. The theorems are about every state that any interleaving of such steps reaches,
with failures anywhere.

| layer | machine | invariant and steps | what follows |
|---|---|---|---|
| chat store (`app/services/chat.py`, `app/models.py`) | `ChatStore`, `ChatSteps`, `ChatRuns`, `ChatServices` | `ChatInvariant`, `ChatMoves`, `ChatCommits` | `ChatSpecs`, `ChatTheorems`, `Creators`, `Receipts`, `ReceiptRuns`, `KeyOrder`, `ReadPrefix`, `Anomalies`, `Paging`, `Listings`, `Inboxes`, `Histories`, `CatchUps`, `LateCommits` |
| outbox relay (`app/realtime/relay.py`) | `RelayNet`, `OutboxRelays` | `RelayInvariant`, `RelaySteps` | `RelayTheorems` |
| hub and socket queue (`app/realtime/hub.py`, `app/api/ws.py`) | `HubMachine`, `Hubs`, `Connections`, `Channels` | `HubMachine`, `Connections` | `HubMachine`, `Connections` |
| keys and cursors (`app/ids.py`) | `Uuids`, `Cursors`, `Base64Url`, `Clock`, `Numerals` | | `Uuids`, `Cursors` |
| all together | `Pipeline` | `PipelineInvariant` | `PipelineTheorems`, `Deliveries`, `Sockets`, `EndToEnd`, `StageOrder`, `Wakeups` |

* Transactions run at PostgreSQL's READ COMMITTED. A statement sees committed rows and its own writes;
  an INSERT waits while another transaction holds a conflicting row; an UPDATE waits for a row lock and
  then looks at its WHERE clause again. A commit installs a transaction's writes and its outbox rows in
  one step, and its acknowledgement may be lost. The outbox sequence is drawn at the flush and never
  rolled back. The log of committed outbox rows only grows, so rows that the sweep deletes can still be
  talked about.
* A relay locks rows one by one with SKIP LOCKED, publishes one by one, and can fail or crash at any
  point. Redis pub/sub hands a message to every replica subscribed at that moment and to nobody else.
* The code that works by changing things in place is a class over the same steps: `ChatService`,
  `OutboxRelay`, `Hub`, `Connection` and the writer loop. At every `await` of `ChatService`, of the relay's
  cycle and of the hub's loops others take any number of steps and the awaited operation may fail;
  `OutboxRelay.RunToWait` runs alone, because its claim is about an undisturbed run. The commands of
  `ChatService` have both contracts: what holds against any interference, and, if no other request
  takes a step and no statement fails meanwhile, exactly what the answer, the tables and the outbox are.
* User ids are compared by code point, by `sorted` and by the table's check alike. Clock readings, random
  ids, what the object storage knows about an upload, the length of a body in graphemes and every failure
  are arbitrary inputs.

## Where the code does less than its text says

* README.md:67-68 says that catch-up "replays everything committed since their last-seen message".
  `created_at` is stamped before the commit (app/services/chat.py:188), so a message can become visible
  below a cursor already handed out. `LateCommits.CommittedMessageIsMissed` is such a run;
  `Paging.FinishedSyncDelivers` says exactly which messages a finished catch-up returns, and
  `CatchUps.CatchUpDuringRuns` that it returns all of them in runs where messages become visible in key order.
* app/services/chat.py:227 calls the answer to an acknowledgement that changed no row "already delivered
  or read". The UPDATE and the lookup are two statements; if the message commits between them the answer
  is the merely sent message and the acknowledgement has no effect (`Anomalies.AckCanBeLost`).
  `Anomalies.AckAnswer` says exactly when the answer is as the comment says: if and only if the message was
  committed when the UPDATE began.
* app/realtime/hub.py:175 calls pending requests "moot" after a failure. Dropping them is harmless
  (`HubMachine.FailureForgets`), but those queued while the link is down are replayed against the
  new snapshot, which can take a connected user's channel away for a moment (`HubMachine.StaleReplayGap`).
  `HubMachine.ReplayIsHarmless` says when it does not: exactly if none of them unsubscribes that channel.
* Read messages form a prefix of what a user was sent where messages become visible in key order
  (`KeyOrder.ReadMessagesAreAPrefix`). In general they do exactly as long as no message commits after a later
  one has been read and no read receipt leaves out an earlier message that its snapshot did not show
  (`ReadPrefix.ReadIsPrefixExactly`); `ReadPrefix.LateMessageRun` and `ReadPrefix.StaleReceiptRun` are a run
  for each. `delivered_at <= read_at` is promised nowhere and not proved: each clock is read before the row
  lock is taken.

## Model

| member | source | states |
|---|---|---|
| ChatCommits.StepOk | app/services/chat.py:155-282 | Every step of every request keeps all table constraints, the announcement log's truth, completeness and order, and the locks' exclusivity; nothing is deleted and no status goes down. |
| ChatTheorems.ReachableOk | app/services/chat.py:155-282 | The same in every state that any schedule of requests reaches from empty tables. |
| ChatTheorems.FaithfulAnnouncement | app/services/chat.py:82-92 | The last stage that the committed outbox rows announce to a message's sender is its stored status; the recipient is told of the message; every row announces only what is committed. |
| ChatTheorems.CausalOrder | app/services/chat.py:202-282 | Outbox ids of a message's rows follow sent, delivered, read, and a user is told each stage at most once. |
| ChatTheorems.ExactlyTwoNewRows | app/services/chat.py:202-206 | A committed message has exactly two `message.new` rows, one for each participant. |
| ChatTheorems.SendIsPutIfAbsent | app/services/chat.py:127-206 | All successful answers for one (sender, client id) name the same durable message, whose recipient, body and attachment are those that each request asked for, and at most one says it was created. |
| Creators.ExactlyOneCreator | app/services/chat.py:155-206 | Of the requests that have been answered, at most one says that it created a message; exactly one does if no request to send it has gone without an answer. |
| ChatTheorems.ConflictMeansDifference | app/services/chat.py:127-136 | In every state of every run, a request has been answered with the idempotency conflict only if the sender's message under its client id differs in recipient, body or attachment. |
| ChatTheorems.AckAnswersParticipants | app/services/chat.py:221-227 | In every run an acknowledgement succeeds only for the recipient and is forbidden only to the sender; nobody else is told that the message exists. |
| ChatTheorems.ReadAnswersStoredTime | app/services/chat.py:253-282 | In every run a read receipt names messages sent to its caller up to the anchor, and the time it answers is the stored `read_at` of each. |
| ChatTheorems.AttachmentsAreIssued | app/services/chat.py:141-153 | Every stored attachment was issued to the message's sender and has an allowed type, and a message without one has no type. |
| ChatTheorems.ConcurrentSendIsUnreachable | app/services/chat.py:193-200 | "Concurrent send, retry" is never answered. |
| ChatTheorems.SelectFindsOne | app/services/chat.py:107-117 | The SELECT after the conflicting or successful insert matches exactly one conversation, so `.one()` cannot fail. |
| ChatTheorems.RelationalIntegrity | app/models.py:56-63 | No conversation is empty, no unordered pair has two, a message's participants are its conversation's pair, and the peer of its reader is its sender. |
| ChatTheorems.ReceiptsAreMonotone | app/services/chat.py:208-267 | Over any stretch of a run a message stays, its status never goes down, and each stamp is written once and is set exactly when the status implies it. |
| ChatCommits.RowsArePlain | app/services/chat.py:82-87 | Which rows a transaction stages: each recipient once, addressed by topic, the recipient's `message.new` before the sender's. |
| ChatCommits.EveryoneOnce | app/services/chat.py:84 | Deduplicating the recipients keeps everyone, once each, in order of first occurrence. |
| ChatCommits.OneRowEach | app/services/chat.py:82-87 | Every recipient gets one row with the payload, and no two rows are alike. |
| ChatCommits.TopicIsInjective | app/services/chat.py:32-33 | Different users have different topics. |
| Receipts.CommitInstalls | app/services/chat.py:89-92 | What a commit installs is a unit of work that the invariant has checked, on the tables as they are at that moment. |
| Receipts.SendCommitsAtomically | app/services/chat.py:175-206 | A send takes effect at its commit, on a free client id, and adds exactly that message. |
| Receipts.AckCommitsAtomically | app/services/chat.py:208-240 | An acknowledgement takes effect at its commit as one atomic update of a message that is still sent. |
| Receipts.ReadCommitsAtomically | app/services/chat.py:251-282 | A read receipt takes effect at its commit as one atomic update, although it locked its rows one by one, and returns exactly the messages it changed. |
| Receipts.EmptyReadIsAtomic | app/services/chat.py:268-269 | A read receipt that returns nothing would have changed nothing. |
| Receipts.ClosedForm | app/services/chat.py:208-267 | For receipts as atomic operations: after any list of them a message is read if some receipt's anchor reaches it, else delivered if acknowledged, else as it was. |
| Receipts.ReceiptsAreConfluent | app/services/chat.py:208-267 | For receipts as atomic operations: two lists of the same receipts, in any order and with any repetitions, give the same statuses. |
| ReceiptRuns.RunActs | app/services/chat.py:208-282 | A run of the service, in any interleaving and with failures, does to the messages what its receipts do as atomic operations, one after the other, until another message commits. |
| ReceiptRuns.RunInClosedForm | app/services/chat.py:208-282 | After such a run every message's status is the best that the run's receipts entitle it to. |
| ReceiptRuns.RunsAreConfluent | app/services/chat.py:208-282 | Two runs from one state with the same receipts, however ordered, repeated and interleaved, leave every message at the same status. |
| Receipts.ReadLowersUnread | app/services/chat.py:242-282 | A read receipt lowers the reader's unread count by exactly the number of ids it returns, and no other count. |
| KeyOrder.ReadMessagesAreAPrefix | app/services/chat.py:253-258 | Where messages become visible in key order, what a user has read in a conversation is a prefix of what the user was sent. |
| ReadPrefix.LateMessageBreaksPrefix | app/services/chat.py:188 | The commit of a message breaks that prefix exactly when a later message to the same user has been read. |
| ReadPrefix.StaleReceiptBreaksPrefix | app/services/chat.py:251-267 | The commit of a read receipt breaks it exactly when it leaves out an earlier unread message that its snapshot did not show. |
| ReadPrefix.CommitKeepsPrefix | app/services/chat.py:155-282 | No other commit breaks it. |
| ReadPrefix.ReadIsPrefixExactly | app/services/chat.py:155-282 | In every run the read messages are a prefix at every moment exactly if no commit of the run is one of these two. |
| ReadPrefix.LateMessageRun | app/services/chat.py:188 | A run in which a message that commits late breaks the prefix. |
| ReadPrefix.StaleReceiptRun | app/services/chat.py:251-267 | A run in which a receipt whose snapshot is too old breaks the prefix. |
| Anomalies.AckAnswer | app/services/chat.py:220-227 | In every state in which an UPDATE of `mark_delivered` is about to begin, no continuation answers the acknowledgement with a merely sent message if and only if the message is committed by then. |
| Anomalies.AckCanBeLost | app/services/chat.py:220-227 | A run in which an acknowledgement is answered with success, the message stays sent, and its sender is told nothing. |
| Models.StringsAreTotallyOrdered | app/models.py:56 | The order shared by `sorted` and the table's check is strict and total. |
| Models.StringsCompareByCodePoint | app/models.py:56 | A string precedes another exactly if it is a proper prefix or has the smaller code point where they first differ. |
| Models.SortedPairIsUnordered | app/services/chat.py:108 | The stored pair holds the two users, does not depend on who writes first, and satisfies the check. |
| Models.KeysAreTotallyOrdered | app/services/chat.py:40-44 | Pagination keys are strictly and totally ordered. |
| Models.KeysFollowTheCalendar | app/services/chat.py:40-44 | A key precedes another exactly if its time is earlier on the calendar, field by field, or equal and its id smaller. |
| ChatServices.ChatService.SendMessage | app/services/chat.py:155-206 | Against any interference: a success is a durable message with the columns asked for; created means that the client id was free at the start; each error occurs only for its reason, and "Concurrent send" not at all. Undisturbed, the answer, the tables and the two outbox rows are `ChatSpecs.SendsAlone`, column by column. |
| ChatServices.ChatService.CheckAttachment | app/services/chat.py:141-153 | It yields the uploaded file's type only if the key was issued to the sender and size and type are allowed, and tells the four refusals apart. |
| ChatSpecs.SendAgain | app/services/chat.py:127-139 | A send that succeeded and is retried answers with the same message, not created, and changes nothing. |
| ChatSpecs.AckAgain | app/services/chat.py:220-227 | A repeated acknowledgement answers the same and changes nothing. |
| ChatSpecs.ReadAgain | app/services/chat.py:251-269 | A read receipt that is repeated, or follows one with a later anchor, answers with no ids and changes nothing. |
| ChatServices.ChatService.MarkDelivered | app/services/chat.py:208-240 | Against any interference: a success names the recipient's message at a stage no further than stored, past sent if it existed at the start; AccessDenied is answered to the sender and to nobody else; NotFound only to someone with no part in the message. Undisturbed, it does `ChatSpecs.AcksAlone`: answer, row and outbox row with the clock reading given. |
| ChatServices.ChatService.ReadUntil | app/services/chat.py:242-282 | Against any interference: a success leaves every message that was incoming up to the anchor at the start read, returns only such messages, and answers the clock reading that is their `read_at`. Undisturbed, it does `ChatSpecs.ReadsAlone`: exactly the due messages, their columns, and one outbox row to the peer. |
| ChatServices.ChatService.ReadFrom | app/services/chat.py:253-282 | The same from the UPDATE on, row lock by row lock. |
| ChatServices.ChatService.CommitWork | app/services/chat.py:89-92 | A success answer is given only when what the transaction wrote is in the tables for good. |
| ChatServices.ChatService.Persist | app/services/chat.py:107-117 | From the conversation on: the guarantees of SendMessage, whoever else creates the conversation or retries, and undisturbed `ChatSpecs.Stores`. |
| ChatServices.ChatService.PersistIn | app/services/chat.py:175-206 | From the message insert on: a retry that loses the race answers with the winner's message. |
| ChatServices.ChatService.ByClientId | app/services/chat.py:119-125 | It finds a committed message with that client id if there is one. |
| ChatServices.RetryFinds | app/services/chat.py:193-200 | A retry whose insert conflicted sees the row it conflicted with. |
| ChatSteps.StepOther | app/services/chat.py:155-282 | No step of one request moves another. |
| Paging.RequestServed | app/services/chat.py:338-354 | A catch-up page holds, in order, exactly the messages between the client's cursor and the one it is handed. |
| Listings.ListMessagesAnswers | app/services/chat.py:324-354 | Every request gets the first messages beyond its cursor, oldest first exactly for `after`, with exact `has_more` and cursor, or is refused for exactly one reason: both cursors, a conversation that is not the user's, or a malformed cursor. |
| Paging.SyncPageIsInterval | app/services/chat.py:338-353 | One page is the oldest messages above the cursor, and `has_more` tells exactly whether some are left. |
| Paging.SyncDelivers | app/services/chat.py:338-354 | Whatever is committed between requests, a client receives a message exactly if, when it became visible, its key was above the cursor held and at or below the last one. |
| Paging.FinishedSyncDelivers | app/services/chat.py:338-354 | A finished catch-up has returned a message exactly if its key was above the cursor held when it became visible. |
| Paging.SyncIsOrdered | app/services/chat.py:338-354 | All pages of a catch-up together strictly ascend, so nothing repeats. |
| Paging.LateMessageIsSkipped | app/services/chat.py:338-354 | A message that becomes visible at or below the cursor is never returned by any later request. |
| LateCommits.CommittedMessageIsMissed | README.md:67-68 | A run of the service and two requests of a client that is told there is no more and has missed a committed message. |
| Paging.CatchUpIsComplete | README.md:67-68 | Where messages become visible in key order, a finished catch-up has returned exactly the messages above its first cursor, empty pages and echoed cursors included. |
| CatchUps.CatchUpDuringRuns | README.md:67-68 | The same for requests made between the steps of any run of the service in which messages become visible in key order. |
| Paging.PagesMakeTheList | app/services/chat.py:338-354 | On a fixed table the pages of any size, put together, are the sorted list of everything above the cursor. |
| Paging.AboveShrinks | app/services/chat.py:349-353 | A page with more to come is full and leaves strictly fewer messages above the next cursor. |
| Paging.HistoryIsComplete | app/services/chat.py:343-354 | Following `next_cursor` to the end returns every message committed before the first request, whatever is inserted between pages. |
| Paging.HistoryIsOrdered | app/services/chat.py:343-354 | All pages of a history together strictly descend, so nothing repeats. |
| Histories.HistoryMakesTheList | app/services/chat.py:343-354 | On a fixed table the pages of a history, of any sizes, put together, are exactly the older messages, newest first. |
| Histories.HistoryEnds | app/services/chat.py:343-354 | With page sizes of at least one, the number of messages beyond the cursor bounds the number of pages. |
| Histories.HistoryDelivers | app/services/chat.py:343-354 | Whatever is inserted between pages, a complete history holds a message exactly if the client was still asking when it became visible, with a cursor it is older than. |
| Paging.SummaryAgreesWithHistory | app/services/chat.py:286-322 | A conversation's summary has a last message, no other has a larger key, its newest-first page starts with it, and the unread count is the number of messages to the user that are not read. |
| Listings.SummaryNamesPeer | app/services/chat.py:286-322 | A summary names the other participant, and everything in the conversation is between the two. |
| Inboxes.ListIsLatestFirst | app/services/chat.py:286-322 | The list names the user's conversations once each, latest activity first, as many as the limit allows, and leaves out none that is later than one it lists. |
| Inboxes.SendMovesToTop | app/services/chat.py:286-322 | After a send that is later than everything before it, the conversation comes first in both participants' lists, shows that message, and counts one more unread for the recipient and none for the sender. |
| Paging.ReadingLowersSummary | app/services/chat.py:290-299 | A read receipt lowers the count in its reader's summary by the number of ids it returns, and no other. |
| Uuids.Uuid7Fields | app/ids.py:12-19 | The fields of section 5.7 of RFC 9562 can all be read back: timestamp, version 7, variant binary 10, and both random parts. |
| Uuids.Uuid7Order | app/ids.py:12-19 | An earlier millisecond gives a smaller id whatever the random bits. |
| Uuids.Uuid7IsInjective | app/ids.py:12-19 | Two ids are equal exactly when the 48 bits kept of the clock and the 74 bits kept of the ten random bytes agree. |
| Uuids.UuidTextParses | app/ids.py:23-33 | The text form of every UUID parses back to it. |
| Uuids.UuidParsesExactly | app/ids.py:33 | The text form and nothing else is accepted. |
| Base64Url.RoundTrip | app/ids.py:24-31 | Every byte string survives base64url without padding (section 5 of RFC 4648) once the padding is restored (section 3.2). |
| Base64Url.PadsRestored | app/ids.py:29 | `-len % 4` restores exactly the padding that was stripped. |
| Base64Url.SymbolsDecode | app/ids.py:29-31 | A text of data symbols is refused exactly if its last symbol stands alone. |
| Base64Url.TestVectors | app/ids.py:24 | Encodings of section 10 of RFC 4648 and of the two symbols that only the URL-safe alphabet has. |
| Cursors.IsoFormatParses | app/ids.py:23-32 | Every UTC timestamp survives its ISO text, with and without a fraction. |
| Cursors.CursorRoundTrip | app/ids.py:22-35 | Every cursor decodes to the timestamp and id that it was made from. |
| Cursors.IsoParsesExactly | app/ids.py:32 | A time is read from its ISO form, with or without a zero fraction, and from nothing else. |
| Cursors.CursorDecodesExactly | app/ids.py:27-35 | A cursor is accepted exactly if it is base64url for the text of a key, and then stands for that key; every other one is refused. |
| Cursors.IsoSamples | app/ids.py:23 | Two times as `isoformat` writes them. |
| Clock.YearsAreGregorian | app/ids.py:32 | The dates that are read are those of the Gregorian calendar. |
| Cursors.CursorLength | app/api/v1.py:99-100 | A cursor has 83 or 92 characters, so it is never empty and always within the query limit. |
| Clock.OrdinalIsInjective | app/services/chat.py:40-44 | Distinct timestamps never compare equal. |
| Clock.OrdinalIsChronological | app/services/chat.py:40-44 | Timestamps compare as the calendar does: the first differing of year, month, day, hour, minute, second and microsecond decides. |
| RelaySteps.StepOk | app/realtime/relay.py:62-129 | Every step of every relay, failures and crashes included, keeps rows, locks, bus and wakeups in order. |
| RelayTheorems.NoRowIsLost | app/realtime/relay.py:62-100 | A committed row is pending or has been on the bus exactly as committed, and the sweep only removes rows of the second kind. |
| RelayTheorems.BusIsCommitted | app/realtime/relay.py:75-78 | Whatever is on the bus is a committed row's payload on the channel of its topic. |
| RelayTheorems.DuplicationIsBounded | app/realtime/relay.py:62-85 | A row is published at most once more than cycles that locked it failed, and two relays never hold the same row. |
| RelayTheorems.NoLostWakeup | app/realtime/relay.py:102-129 | While a relay is blocked, each pending row of its own replica has its `notify` still to come or was locked by another relay when this one looked. |
| RelayTheorems.SingleRelayKeepsOrder | app/realtime/relay.py:64-83 | With one relay, failures and repeated batches included, no row is first published before a smaller-numbered row committed no later. |
| RowOrder.SortedIsUnique | app/realtime/relay.py:68 | ORDER BY id leaves one possible list. |
| RowOrder.RestIsOrdered | app/realtime/relay.py:68-69 | Taking the first rows of the backlog leaves the rest of the same list. |
| OutboxRelays.OutboxRelay.NotifyCommit | app/realtime/relay.py:50-51 | It raises the flag of its own relay and covers the rows it was called for. |
| OutboxRelays.OutboxRelay.SelectBatch | app/realtime/relay.py:64-72 | Whatever other relays and requests do meanwhile, it locks pending rows in order of id, and whatever else was pending is held by another relay, published, or behind a full batch; undisturbed, it locks the front of the backlog. |
| OutboxRelays.OutboxRelay.PublishBatch | app/realtime/relay.py:62-85 | Among other relays and with failures at any point: from the lock on each row of a completed batch reaches the bus once, in order, from this relay only, and is marked; undisturbed, that is the front of the backlog and nothing else changes. |
| OutboxRelays.ForeignStep | app/realtime/relay.py:64-71 | No step of another relay publishes a row that this relay holds. |
| OutboxRelays.OutboxRelay.RunToWait | app/realtime/relay.py:102-129 | An undisturbed run takes floor(n/b)+1 cycles, publishes the n pending rows once each in order, and leaves no backlog, whenever the sweep runs. |
| Channels.UserOfChannel | app/realtime/hub.py:181-186 | Stripping the prefix recovers a user exactly from that user's channel, for every id, colons included. |
| Channels.TopicReachesUser | app/realtime/hub.py:34-39 | An outbox topic's channel is its user's channel. |
| Channels.ControlIsNoUser | app/realtime/hub.py:79 | The control channel is nobody's. |
| HubMachine.StepOk | app/realtime/hub.py:106-179 | Every step keeps: applying what is pending leads to exactly the channels that the local users need. |
| HubMachine.SubscriptionAgreement | app/realtime/hub.py:106-179 | The last pending request for a user's channel says whether the user is connected here; without one, the channel is subscribed, or will be by the next snapshot, exactly if the user is. |
| HubMachine.DrainedMeansExact | app/realtime/hub.py:162-172 | With nothing queued or in flight, the subscriptions are the control channel and the local users' channels. |
| HubMachine.StaysSubscribed | app/realtime/hub.py:106-122 | With no pending request to unsubscribe it, a connected user's channel outlives any activity that neither loses the link nor removes that connection, stale requests to subscribe included. |
| HubMachine.ReplayIsHarmless | app/realtime/hub.py:162-179 | A connected user's channel, subscribed, or in the snapshot being subscribed, or, while the link is down, in the next one, survives everything that spares the link and the connection exactly if no pending request unsubscribes it. |
| HubMachine.FailureForgets | app/realtime/hub.py:152-155 | After a failure no request from before it can take a connected user's channel away, through anything that spares the new link and the connection. |
| HubMachine.RegistryFollows | app/realtime/hub.py:106-122 | Over any stretch of a run a connection is registered exactly if it was registered last, or was there at the start and never unregistered. |
| HubMachine.StaleReplayGap | app/realtime/hub.py:174-179 | A run in which replaying stale requests takes a connected user's channel away although the snapshot had it. |
| HubMachine.UnregisterUndoesRegister | app/api/ws.py:58-64 | Unregistering a connection that was new leaves the registry as it was and at most two requests that cancel out. |
| HubMachine.ReplayedLast | app/realtime/hub.py:162-172 | Of the requests for a channel only the last one counts. |
| Hubs.Hub.constructor | app/realtime/hub.py:77-83 | A new hub is in the machine's initial state. |
| Hubs.Hub.Register | app/realtime/hub.py:106-112 | It is the machine's registration step: the connection is added, no other is touched, and a SUBSCRIBE is queued exactly for the user's first. |
| Hubs.Hub.Unregister | app/realtime/hub.py:114-122 | It is the machine's unregistration step, a connection that is not there included: the connection is removed, no other is touched, and an UNSUBSCRIBE is queued exactly for the user's last. |
| Hubs.Hub.Connect | app/realtime/hub.py:139-143 | It subscribes to the control channel and to the users that were local when it began, whoever registers or unregisters meanwhile, or fails on the way. |
| Hubs.Hub.ApplyRequests | app/realtime/hub.py:162-172 | With others registering and unregistering at every await, the loop ends, unless a request fails, with an empty queue and subscribed to exactly what the local users need by then. |
| Hubs.Hub.ReleaseWaiters | app/realtime/hub.py:174-179 | It empties the queue. |
| Hubs.Hub.Lose | app/realtime/hub.py:152-155 | It is the machine's failure step: the link is down, no request is left, and the registry stays. |
| Hubs.Hub.Dispatch | app/realtime/hub.py:181-197 | The event is offered once to every device of the channel's user and to no other device. |
| Hubs.Hub.Stop | app/realtime/hub.py:92-99 | Every device is asked to close. |
| Connections.GapFreePrefix | app/realtime/hub.py:48-73 | For any sends, closes and takes: the wire carries a gap-free prefix of what was offered, a close request comes last, and the queue never exceeds its bound by more than one. |
| Connections.OpenWhileRoomy | app/realtime/hub.py:58-65 | A connection that nobody closes is closed exactly when an event finds the queue full. |
| Connections.CloseHasReason | app/realtime/hub.py:58-70 | A closed connection asks for the code of whatever closed it first: the caller's, or 1013 when an event found the queue full. |
| Connections.StepIntact | app/realtime/hub.py:58-73 | What was taken and what waits is a prefix of what was offered, all of it while the connection is open. |
| Connections.Connection.constructor | app/realtime/hub.py:51-56 | A new connection has an empty history. |
| Connections.Connection.SendNowait | app/realtime/hub.py:58-65 | It continues the connection's history by one offer, whatever becomes of it. |
| Connections.Connection.Close | app/realtime/hub.py:67-70 | It continues the history by a close, at most one of which is ever queued. |
| Connections.Connection.NextEvent | app/realtime/hub.py:72-73 | It takes the oldest entry. |
| Connections.Writer | app/api/ws.py:122-130 | The loop puts everything accepted on the wire and returns exactly when it has met the close request, with whose code it closes the socket. |
| PipelineInvariant.StepOk | app/services/chat.py:3-5 | Every step of the whole pipeline keeps: what travels towards a socket comes from a committed row for that socket's user. |
| PipelineInvariant.HintIsEnabled | app/api/deps.py:13-15 | A commit's rows are always new to the relays, so the composition never holds a commit back. |
| PipelineTheorems.PushIsDurable | app/services/chat.py:3-5 | Every `message.*` event that any socket ever queued or took is the payload of a committed row for exactly that socket's user, and what it says is committed and concerns that user. |
| PipelineTheorems.WireIsPrefix | app/api/ws.py:122-130 | In every run of the pipeline, what reached a wire is a gap-free prefix of what was offered to that socket. |
| PipelineTheorems.BusNeverLeads | app/models.py:108-109 | The bus tells nobody a stage that the database has not reached. |
| PipelineTheorems.BusIsFaithful | app/models.py:108-109 | Once a message's rows have left the backlog, the furthest stage on its sender's channel, over all repetitions and orders, is the stored status, and its recipient has been told. |
| Deliveries.NoPushIsMissed | app/realtime/hub.py:3-5 | While a socket is registered and its replica keeps link and process, its offers and its inbox grow by exactly what the bus carries on its user's channel, once each and in order. |
| Sockets.OpenSocketIsLive | app/realtime/hub.py:3-5 | A socket that has been opened is live in that sense whenever its replica's link is up with no request left, through any losses of the link, until it is shut or its process restarts. |
| Sockets.ShutIsFinal | app/api/ws.py:58-64 | Once a socket has been shut, nothing from the bus is offered to it any more. |
| Sockets.UnheardIsMissed | app/realtime/hub.py:139-158 | What the bus carries while a replica's link is down, or not subscribed to a user's channel, is never offered to that user's sockets there. |
| EndToEnd.SenderSeesTheStatus | app/models.py:108-109 | For a sender's socket that has been live since before the message's present status first reached the bus: once the message's rows have left the backlog and the inbox is empty, the furthest stage that the socket has been offered, and the furthest on its wire if the writer has caught up, is the stored status. |
| EndToEnd.RecipientSeesTheMessage | app/services/chat.py:202-206 | A recipient's socket that has been live since before the message first reached the bus has then been told of the message, and of no stage beyond the stored one. |
| StageOrder.StoreRun | app/services/chat.py:155-282 | A run of the pipeline is a run of the chat store. |
| StageOrder.RelayRun | app/realtime/relay.py:62-129 | A run of the pipeline is a run of the relays. |
| StageOrder.StagesInOrder | app/realtime/relay.py:64-83 | With one relay, failures and repeated batches included, no later stage of a message is published before every announcement of its earlier stages. |
| Wakeups.NoLostWakeup | app/api/deps.py:13-15 | In every run of the pipeline, while a relay is blocked, each pending row of its replica belongs to a request that has yet to call `on_commit` or never learned that it had committed, or was locked by another relay when this one looked. |
| Wakeups.AnsweredRequestsAreNoticed | app/services/chat.py:89-92 | Once a request has been answered, whatever it committed and a blocked relay of its replica still finds pending was locked by another relay when this one looked. |

## Left out

- HTTP routes, dependencies, middleware, errors as HTTP responses, logging, metrics, health checks, configuration, deployment and migrations: no hard property of the pipeline.
- Tokens and authentication: a user id is an input that has been authenticated.
- Attachment storage and presigned URLs: what the storage's HEAD request finds is an input, and `attachment_url` is not part of a message here.
- Grapheme counting: the length is an input of the request.
- JSON: payloads are datatypes, so malformed events on the bus do not occur; `message_ids` and the ids a read receipt returns are sets, since their order is PostgreSQL's.
- Redis commands are one step: a subscription is in force when the call returns, and a pipeline's commands run one by one before control returns to the relay.
- Time: poll intervals, backoff, the five-second waits for a request, heartbeats and idle timeouts only decide when a step is taken, and the model lets every step be taken at any time. The futures on which `register` and `unregister` wait are therefore absent.
- Liveness that needs Redis or PostgreSQL to come back: safety, and the bounded drain of an undisturbed relay, are proved instead.
- Typing events reach the bus as ephemeral events; the socket's reader, its parsing and its cache of peers are not modelled.
- Cursors.CursorDecodesExactly: other texts that `fromisoformat`, `UUID` or UTF-8 decoding would also accept are refused by this model of `decode_cursor`.
- OutboxRelays.OutboxRelay.RunToWait: is about an undisturbed run; one cycle among other relays and with failures is `PublishBatch`, and whole runs are in RelayNet and its theorems.
- Hubs.Hub.ApplyRequests: others step in a bounded number of times, as many as one likes; if they never stopped, neither would the loop.
- ChatServices.ChatService.SendMessage: a statement still blocked by another transaction waits or fails; deadlock detection is one of the failures that may occur at any statement.
