# Verified models of the agent runtime

This project models the parts of the runtime that keep state or transform data, and proves what
they promise. Each module stands for one component:

| module | component |
|---|---|
| `ChannelIds`, `MessageContent`, `ChannelStore`, `Outbound`, `ChannelHarness`, `HarnessRuns`, `Orchestrator` | the channel orchestrator: thread ids, the content tree and the provider walkers over it, the in-memory store, the per-channel outbound worker, the inbound loop and the thread operations, their runs read off the operations, and all of them together over one store |
| `Sessions`, `SessionQuota` | the agent-SDK session lifecycle: slots, session registry, sandbox workspaces; what overlapping stops and overshooting refusals do to the quota |
| `AgentTurn`, `TurnLayout` | the tool-call loop, its records and their replay; whole turns read off their parts |
| `Redaction`, `RateLimit` | the two middlewares that carry state or rewrite messages |
| `ContextAssembly` | greedy packing of prioritized fragments into a token budget |
| `SignalRpc` | JSON-RPC 2.0 over a line-framed socket (sections 4.1 and 5 of JSON-RPC 2.0): framing and response correlation |
| `SpendLedger` | spend roll-ups and budget checks |
| `CliRun` | the event accumulator of a headless coding-CLI run |
| `AvatarSync` | timecodes, PCM conversion and per-frame audio slicing |
| `Pipelines` | sequential, assigning, nested and fan-out composition of callables |

`Prelude` holds the few types they share.

## How the models are built

Code that updates objects is a class whose methods are proved equal to a function of the old state
(`Apply`, `Process`, `Step`, `Record`, `Accumulate`, ...); the theorems are about whole runs of those
functions. What the functions themselves compute is stated once more without them, in terms of the
data a caller sees: `CompletedTurnReads` places every message and event of a turn, `QueueReadsTheRun`
and its companions read a harness run off its operations, `ProcessMeans` and `PayloadsInOrder` speak of
the leaves of a message, `ReplaceIff` of cuts of a text, `FirstAnswerCounts` of the frames of a run.
Concurrent code is a step system: `Sessions.Step` and `SignalRpc.Next` interleave atomic
steps of any number of operations, and `StartIsAPath`, `StopIsAPath` and `RunIsAPath` tie the
sequential methods to that system. `Orchestrator.Step` interleaves the harness operations with one
outbound worker per channel over one store; `HarnessSimulates` and `WorkerSimulates` show that each
of its runs is a run of `ChannelHarness` and, as the worker of any channel sees it, a run of
`Outbound`, so that the theorems about the two halves hold of the whole. Providers, models, backends,
tools, clocks and other tasks are parameters about which nothing is assumed beyond what a lemma's
`requires` says.

Several promises of the code hold only under a condition. There the project gives an input on which
the promise fails and the exact condition under which it holds:

- Thread ids are `channel#peer`. Two channels can share a thread id exactly when one id followed by
  `#` starts the other (`CollisionIffNotSeparated`), and the inbound deduplication holds over all runs
  exactly on sets of channels without such a pair (`DedupIffSeparated`).
- Deleting a channel from the store while one of its threads is cached ends deduplication for that
  thread (`DeletedChannelForgets`, `RepeatsAfterDeletionIff`).
- The session quota holds while a session has one stop at a time. In runs that end with nothing in
  flight, slots were released in excess if and only if some stop found its session while another stop
  of it had not yet removed it (`ExcessIffOverlap`). The slots held exceed the quota by at most the
  excess releases (`QuotaInEveryInterleaving`), and for every quota and every number of excess
  releases a run from the start reaches that bound (`QuotaBoundReached`). Or the counter drops below
  zero and every start is refused although no session is left (`ClosedAfterOverlap`).
- A reservation is granted exactly while the slots held and the refusals not yet undone leave a slot
  (`SoleReservationGrantedIff`), so it can be refused while a slot is free (`SpuriousRefusal`).
- A (thread, key) is acknowledged exactly as often as its record was dropped, plus once if it is on
  record (`AckedExactly`); deleting the thread makes the same key go out again (`DeletionResends`).
- Redaction with a replacement that overlaps a pattern can leave the pattern behind: a pattern without
  self-overlap is removed from every text exactly if it is compatible with the replacement
  (`RemovedFromEveryTextIffCompatible`), any pattern exactly if it is removed from each of finitely many
  short texts over its own characters (`RemovedFromEveryTextIffFromShort`).
- A rate-limited caller without competition gives up exactly when the bucket has no capacity, or is
  empty and never refilled (`LoneWaiterGivesUpIff`).
- The context assembler does not always evict lowest priority first (`SmallerFragmentSurvives`,
  `EvictsByPriorityIff`).
- Written frames read back unchanged exactly when none contains a newline or ends in a carriage
  return (`FramingRoundTripIff`).
- The ledger's words wrap around, so a check is exact exactly while the true spend fits
  (`TokenCapWraps`, `CheckIsExactIffFits`), and `spend_by` is exact on every log exactly for keys
  without `/` (`SpendByExactIffPlain`).

Where the code and its own comments disagree, the models follow the code:

- `crates/agent/src/middleware.rs:239` speaks of the user message; the code rewrites every text
  message of the batch.
- `crates/context/src/lib.rs:52-53` and `:68` speak of evicting the lowest priority first; the greedy
  loop keeps a small fragment of low priority after dropping a larger one of higher priority.
- `crates/coding-cli-core/src/result.rs:46` calls the final text the concatenation of all deltas; a
  non-empty text of a finish event replaces what was collected.
- `crates/channel-core/src/content.rs:33-34` says that attachments are ignored; captions are part of
  the text.
- `crates/channel-core/src/ids.rs:61-64` presents a collision of thread ids as one peer on one
  channel; with `#` in a channel id different pairs collide too.

## Model

| member | source | states |
|---|---|---|
| `ChannelIds.ForPeerInjective` | crates/channel-core/src/ids.rs:61-68 | over channels of which none, followed by `#`, starts another, a thread id determines channel and peer |
| `ChannelIds.CollisionIffNotSeparated` | crates/channel-core/src/ids.rs:61-68 | two distinct channel ids share a thread id for some peers if and only if one followed by `#` starts the other |
| `ChannelIds.HashFreeSeparated` | crates/channel-core/src/ids.rs:61-68 | channel ids without `#` are collision free |
| `MessageContent.CheckDecidesLeaves` | crates/channel-core/src/content.rs:66-89 | the capability check succeeds exactly when every leaf kind is enabled, and otherwise names the kind of the first disabled leaf from the left |
| `MessageContent.AsTextIsLeafLines` | crates/channel-core/src/content.rs:35-46 | the text of a tree, however nested, is the non-empty texts and captions of its leaves, left to right, one per line |
| `MessageContent.CollectText` | crates/channel-provider-signal/src/rpc.rs:78-99 | Signal's text collector returns the tree's own text (`as_text`) on every tree |
| `MessageContent.PushAttachments` | crates/channel-provider-signal/src/rpc.rs:101-117 | the walker appends the references of the attachment leaves, left to right, to what was collected before |
| `MessageContent.PushPayloads` | crates/channel-provider-whatsapp/src/client.rs:37-94 | the payload builder appends the payloads of the tree to what was collected before |
| `MessageContent.PayloadsInOrder` | crates/channel-provider-whatsapp/src/client.rs:37-94 | what these payloads are, in order: per `Mixed` node those of its nested trees, then its own texts as one body, one line each, leading empty ones apart, then its own attachments with reference, caption and kind |
| `MessageContent.KindOfMime` | crates/channel-provider-whatsapp/src/client.rs:96-107 | an attachment goes out as image, audio or video exactly if its mime type is that word or that word and a slash followed by anything, as a document otherwise |
| `MessageContent.PushNested` | crates/channel-provider-whatsapp/src/client.rs:64-80 | the loop over the parts pushes nested trees at once and sets texts and attachments aside in order |
| `MessageContent.PushMedia` | crates/channel-provider-whatsapp/src/client.rs:89-91 | the attachments set aside are pushed in order |
| `MessageContent.MediaConserved` | crates/channel-provider-whatsapp/src/client.rs:26-94 | each media payload (reference, kind, caption, peer) is sent exactly as often as the tree has such a leaf |
| `MessageContent.SameReferences` | crates/channel-provider-whatsapp/src/client.rs:26-94 | WhatsApp's payloads carry exactly the multiset of references that Signal's collector lists |
| `MessageContent.TextConserved` | crates/channel-provider-whatsapp/src/client.rs:64-88 | every character of the text leaves, newlines apart, is sent exactly as often as it occurs |
| `MessageContent.PayloadsAddressed` | crates/channel-provider-whatsapp/src/client.rs:26-94 | every payload of a tree goes to the addressed peer |
| `ChannelStore.InMemoryChannelStore.UpsertChannel` | crates/channel-core/src/store.rs:137-140 | refines the log operation |
| `ChannelStore.ChannelsReadTheLog` | crates/channel-core/src/store.rs:137-154 | `get_channel` answers the spec upserted last: after any operation log a channel is present exactly when an upsert of it was not followed by its deletion, with that upsert's spec |
| `ChannelStore.InMemoryChannelStore.DeleteChannel` | crates/channel-core/src/store.rs:152-167 | the collecting and removing loops drop exactly the channel's threads, their messages and its seen ids |
| `ChannelStore.InMemoryChannelStore.UpsertThread` | crates/channel-core/src/store.rs:169-172 | refines the log operation |
| `ChannelStore.InMemoryChannelStore.DeleteThread` | crates/channel-core/src/store.rs:191-196 | drops the thread and its messages and leaves the seen ids |
| `ChannelStore.InMemoryChannelStore.AppendMessage` | crates/channel-core/src/store.rs:198-213 | appends, and marks an inbound id under the channel the thread is stored on |
| `ChannelStore.InMemoryChannelStore.ListMessages` | crates/channel-core/src/store.rs:215-230 | returns the newest `limit` records in order, all of them for limit zero |
| `ChannelStore.InMemoryChannelStore.LookupOutboundByKey` | crates/channel-core/src/store.rs:232-242 | the search returns the id of the earliest record with the key |
| `ChannelStore.InMemoryChannelStore.HasInbound` | crates/channel-core/src/store.rs:244-250 | answers membership in the seen set |
| `ChannelStore.ThreadsReadTheLog` | crates/channel-core/src/store.rs:152-196 | after any operation log a thread is present exactly when an upsert of it was not undone since, with the value of that upsert |
| `ChannelStore.SeenReadsTheLog` | crates/channel-core/src/store.rs:198-250 | `has_inbound` answers exactly what scanning the log gives; deleting a thread does not forget, deleting the channel does |
| `ChannelStore.MessagesReadTheLog` | crates/channel-core/src/store.rs:152-230 | a thread's messages are exactly the records appended since its messages were last dropped, in order |
| `ChannelStore.WipesReadTheTable` | crates/channel-core/src/store.rs:152-196 | scanning the log and looking at the thread table agree on which operations drop a thread's messages |
| `ChannelStore.LookupIsFirst` | crates/channel-core/src/store.rs:232-242 | a key lookup gives the provider id of the earliest record with the key, nothing if there is none |
| `Outbound.OutboundWorker.ProcessOne` | crates/channel-harness/src/outbound.rs:46-111 | refines the job as a function of state, provider answers and interference; at most three attempts, with pauses of 100 and 200 ms between them |
| `Outbound.ProcessMeans` | crates/channel-harness/src/outbound.rs:46-111 | what a job comes to: a key on record is answered with the id of its earliest record and nothing happens; otherwise the job is denied, with nothing sent, if and only if the stored spec disables a leaf of the message, the error naming the first; otherwise it is sent up to the first acknowledgement or the third refusal, an acknowledged message is recorded as outbound with content, id and key, and the caller gets the last answer |
| `Outbound.AttemptsArePermitted` | crates/channel-harness/src/outbound.rs:66-69 | over every run each attempt is of a message that a job asked to send, whose leaves were all enabled by the spec stored when the job was taken, if there was one, and whose key was not on record |
| `Outbound.OutboundWorker.SendWithRetry` | crates/channel-harness/src/outbound.rs:71-91 | the retry loop stops at the first acknowledgement or after the third refusal |
| `Outbound.AttemptCount` | crates/channel-harness/src/outbound.rs:71-91 | one to three attempts, all but the last refused, fewer than three only after an acknowledgement |
| `Outbound.JobAcks` | crates/channel-harness/src/outbound.rs:71-91 | a job is acknowledged at most once, with its final answer |
| `Outbound.ProcessRecords` | crates/channel-harness/src/outbound.rs:93-110 | a successful job leaves the returned provider id on record under its key |
| `Outbound.AckedExactly` | crates/channel-harness/src/outbound.rs:28-111 | for any jobs, provider behaviour and interference, a (thread, key) was acknowledged exactly as often as a record of it was dropped, plus once if it is on record now |
| `Outbound.AckedAtMostOncePerLife` | crates/channel-harness/src/outbound.rs:28-111 | so at most once more often than the thread's messages are dropped, and at most once exactly if its record was never dropped, or was dropped once and not made again |
| `Outbound.DeletionResends` | crates/channel-harness/src/outbound.rs:52-64 | the bound is reached: deleting the thread makes the same key go out again |
| `Outbound.LaterJobsReplay` | crates/channel-harness/src/outbound.rs:52-64 | once a key is on record, every later job with it returns that provider id, sends nothing and changes nothing, until the thread's messages are dropped; deletions that a replayed or denied job never waits for do not count |
| `Outbound.LogIsLiveAcks` | crates/channel-harness/src/outbound.rs:93-101 | over every run, deletions included, a thread's keyed records (key, content, provider id) are exactly what the provider acknowledged since its messages were last dropped, one per key, in order of acknowledgement |
| `Outbound.LogIsAckList` | crates/channel-harness/src/outbound.rs:93-101 | while nothing is dropped these are all its acknowledgements |
| `ChannelHarness.LiveThread.Push` | crates/channel-core/src/thread.rs:76-83 | appends to the history in place and drains the excess from the front |
| `ChannelHarness.HistoryIsNewest` | crates/channel-core/src/thread.rs:68-83 | after any pushes the history is exactly the newest `history_cap` messages in order, all of them when the cap is zero |
| `ChannelHarness.Harness.AttachProvider` | crates/channel-harness/src/harness.rs:110-155 | refines the attach step; a second provider on a channel is refused, and one that does not start leaves the stored spec behind |
| `ChannelHarness.Harness.DetachProvider` | crates/channel-harness/src/harness.rs:159-175 | refines the detach step; the store stays as it is |
| `ChannelHarness.Harness.OpenThread` | crates/channel-harness/src/harness.rs:196-231 | refines the open step, and fails exactly on a channel that is not attached |
| `ChannelHarness.Harness.CloseThread` | crates/channel-harness/src/harness.rs:234-242 | refines the close step |
| `ChannelHarness.Harness.AdminSend` | crates/channel-harness/src/harness.rs:264-310 | refines the send step up to the queue; an unknown thread, a channel that is not stored, a content with a disabled leaf, the first of which is named, and a channel that is not attached fail in this order |
| `ChannelHarness.Harness.HandleInbound` | crates/channel-harness/src/inbound.rs:34-184 | refines the inbound step; a duplicate or a message without thread changes nothing, and otherwise what the target replied is queued for the peer in answer to the message, unless the channel is not attached |
| `ChannelHarness.TurnsPerLife` | crates/channel-harness/src/inbound.rs:34-99 | over every run on collision-free channels that deletes a channel only while none of its threads is cached, a (channel, message id) takes at most one turn more often than its channel is deleted |
| `ChannelHarness.AtMostOneTurn` | crates/channel-harness/src/inbound.rs:34-99 | without channel deletion, at most one turn per (channel, message id), also across closing and reopening |
| `ChannelHarness.EveryMessageHasItsTurn` | crates/channel-harness/src/inbound.rs:34-99 | with a default target the turns of a run are exactly the distinct messages that arrived, one each |
| `ChannelHarness.DedupIffSeparated` | crates/channel-core/src/ids.rs:61-68 | deduplication holds over all runs on a set of channels if and only if no two can collide |
| `ChannelHarness.CollisionTakesTwoTurns` | crates/channel-core/src/store.rs:198-213 | a concrete run on colliding channels takes one message twice |
| `ChannelHarness.DeletedChannelForgets` | crates/channel-core/src/store.rs:152-167 | after deleting a channel with a cached thread, a message takes a turn every time it arrives |
| `ChannelHarness.RepeatsAfterDeletionIff` | crates/channel-core/src/store.rs:152-167 | after a deletion a message that arrives twice takes two turns if and only if its thread was cached |
| `ChannelHarness.QueuedWhereTheyBelong` | crates/channel-harness/src/inbound.rs:152-180 | over every run each queued message is on the thread of its own channel and peer, and each queued reply answers a turn taken on that thread |
| `ChannelHarness.HistoryMirrorsLog` | crates/channel-harness/src/inbound.rs:73-85 | over every run without channel deletion, what the peer said according to a cached thread's history is the newest part, in order, of what the thread's log holds, all of it if the history is unbounded |
| `HarnessRuns.TurnsReadTheRun` | crates/channel-harness/src/inbound.rs:34-99 | over every run the turns taken are exactly, in order, one for each arriving message that is new and finds or opens its thread, with that thread's target |
| `HarnessRuns.QueueReadsTheRun` | crates/channel-harness/src/inbound.rs:152-180 | over every run the queue is exactly, in order, what the target of each accepted message on an attached channel replied, with its content and key, for the peer and in answer to the message, and what each admin send that goes through sends; each once and nothing else |
| `HarnessRuns.ProvidersReadTheRun` | crates/channel-harness/src/harness.rs:110-175 | a channel is attached exactly when a provider on it was attached, started and not detached since |
| `HarnessRuns.CacheReadsTheRun` | crates/channel-harness/src/harness.rs:196-242 | a thread is open exactly when it was opened, by an administrator or by a message, and not closed since |
| `HarnessRuns.TargetReadsTheRun` | crates/channel-harness/src/harness.rs:210-220 | the target of an open thread is the one it was bound to last, also while it was open, or the default target if nobody bound it since it was last closed |
| `HarnessRuns.HistoryReadsTheRun` | crates/channel-core/src/thread.rs:68-83 | over every run the history of an open thread is the newest `history_cap` of all that peer and target said on it since it was last closed, in order |
| `HarnessRuns.StoreReadsTheRun` | crates/channel-harness/src/inbound.rs:50-85 | the store of a run is the replay of its log of store operations: rows of opened threads, and each accepted message as an inbound record with its content and provider id |
| `Orchestrator.HarnessSimulates` | crates/channel-harness/src/inbound.rs:34-184 | in every interleaving with the workers the harness behaves as the harness model does, worker records being one of its steps |
| `Orchestrator.WorkerSimulates` | crates/channel-harness/src/outbound.rs:28-111 | in every interleaving the worker of a channel behaves as the worker model does, harness operations and other workers being its interference |
| `Orchestrator.InterferenceIsKeyless` | crates/channel-harness/src/outbound.rs:93-101 | on collision-free channels that interference never writes a keyed record on a thread of the worker's channel |
| `Orchestrator.SentInQueueOrder` | crates/channel-harness/src/outbound.rs:28-31 | the messages of a channel are sent in the order in which they were queued, each at most once |
| `Orchestrator.AttemptsAreDrafts` | crates/channel-harness/src/inbound.rs:152-168 | every attempt of every interleaving, acknowledged or not, carries the thread, content and key of a message that an earlier harness operation queued: what a target replied to an accepted message, or an admin send |
| `Orchestrator.SendsArePermitted` | crates/channel-harness/src/outbound.rs:66-69 | whatever was sent in an interleaving had all its leaves enabled by the spec stored when its worker took it, if there was one, and a key that was not on record |
| `Orchestrator.NothingIsStuck` | crates/channel-harness/src/outbound.rs:28-43 | after any interleaving the workers alone can go on until every queued message was taken and its caller has a result |
| `Orchestrator.AckedExactly` | crates/channel-harness/src/outbound.rs:46-111 | the exact count of acknowledgements of a (thread, key) holds in the combined system |
| `Orchestrator.ThreadLogIsLiveAcks` | crates/channel-harness/src/outbound.rs:93-101 | in every interleaving, deletions included, the keyed records of a thread are exactly what was acknowledged on it since its messages were last dropped |
| `Orchestrator.ThreadLogIsAckList` | crates/channel-harness/src/outbound.rs:93-101 | while a thread is not deleted they are all acknowledgements on it, in order |
| `Orchestrator.OneReplyPerMessage` | crates/channel-harness/src/inbound.rs:152-180 | in every interleaving without channel deletion each inbound (channel, message id) has at most one reply that the provider acknowledged, also across closing and reopening threads |
| `Orchestrator.SuccessesAreGenuine` | crates/channel-harness/src/outbound.rs:29-43 | a caller is told of a success only if the provider acknowledged its key on its thread with that id; so do all keyed records arise |
| `Orchestrator.ToldIffAcked` | crates/channel-harness/src/harness.rs:287-315 | with fresh keys the caller of a queued message is told of a success with an id if and only if the provider acknowledged that very message with that id |
| `Sessions.QuotaInEveryInterleaving` | crates/agent-sdk-harness/src/harness.rs:247-258 | in every interleaving, also while refused reservations overshoot, the counter is held slots plus refusals not yet undone less excess releases, and held slots exceed the quota by no more than those |
| `Sessions.SoleStopsKeepQuota` | crates/agent-sdk-harness/src/harness.rs:247-376 | with one stop per id at a time no release is in excess, the counter is held slots plus refusals not yet undone, and held slots never exceed the quota |
| `SessionQuota.ExcessIffOverlap` | crates/agent-sdk-harness/src/harness.rs:363-376 | in every run that ends with nothing in flight, slots were released in excess if and only if some stop found its session while another stop of it had not yet removed it |
| `SessionQuota.QuotaBoundReached` | crates/agent-sdk-harness/src/harness.rs:247-376 | for every quota from one on and every n a run from the start, with at most two operations in flight, ends with n sessions above the quota after n excess releases |
| `SessionQuota.NegativeCounterRefuses` | crates/agent-sdk-harness/src/harness.rs:247-258 | a counter below zero shows a huge value: every reservation and every start is refused |
| `SessionQuota.ClosedAfterOverlap` | crates/agent-sdk-harness/src/harness.rs:363-376 | for every quota a run from the start stops its only session twice and leaves a harness without sessions that refuses every start |
| `SessionQuota.ReservationGrantedIff` | crates/agent-sdk-harness/src/harness.rs:247-254 | in every interleaving the next reservation is granted exactly if held slots and refusals not yet undone make up for the excess releases and leave a slot |
| `SessionQuota.SoleReservationGrantedIff` | crates/agent-sdk-harness/src/harness.rs:247-254 | with one stop per id: granted if and only if held slots plus refusals not yet undone are below the quota |
| `SessionQuota.SpuriousRefusal` | crates/agent-sdk-harness/src/harness.rs:247-254 | for every quota a run without stops ends with a free slot and a refused next reservation |
| `Sessions.OverlappingStopsOverRelease` | crates/agent-sdk-harness/src/harness.rs:363-376 | two stops of one registered session, both past the lookup, finished one after the other, release one slot too many |
| `Sessions.SandboxesAccounted` | crates/agent-sdk-harness/src/harness.rs:195-376 | in every interleaving each staged sandbox has exactly one owner until destroyed, is destroyed at most once and never used after; one whose staging failed is never destroyed |
| `Sessions.QuiescentStateAgrees` | crates/agent-sdk-harness/src/harness.rs:309-376 | with no operation in flight the counter is the number of sessions, within the quota, and the live sandboxes are exactly the workspaces of registered sessions |
| `Sessions.EverySandboxEnds` | crates/agent-sdk-harness/src/harness.rs:217-228 | a sandbox staged at any point ends, once nothing is in flight, destroyed exactly once or as the workspace of a registered session |
| `Sessions.StartIsAPath` | crates/agent-sdk-harness/src/harness.rs:309-359 | the effect of a whole start, on each of its success and error paths, is a path of the step system |
| `Sessions.StopIsAPath` | crates/agent-sdk-harness/src/harness.rs:363-376 | the effect of a whole stop is a path of the step system |
| `Sessions.RunIsAPath` | crates/agent-sdk-harness/src/harness.rs:261-306 | the effect of a whole headless run is a path of the step system |
| `Sessions.AgentSdkHarness.ReserveSlot` | crates/agent-sdk-harness/src/harness.rs:247-254 | succeeds exactly below the quota, and a refusal leaves the counter as it was |
| `Sessions.AgentSdkHarness.ReleaseWorkspace` | crates/agent-sdk-harness/src/harness.rs:217-228 | destroys the sandbox of the workspace |
| `Sessions.AgentSdkHarness.PrepareWorkspace` | crates/agent-sdk-harness/src/harness.rs:160-213 | acquires a staged sandbox, none for a host projection, or fails, leaving a sandbox whose staging failed behind |
| `Sessions.AgentSdkHarness.StartSession` | crates/agent-sdk-harness/src/harness.rs:309-359 | the shared state and the error of each path, an invalid working directory being refused before a slot is reserved; a failing initial prompt leaves the session registered and its slot held |
| `Sessions.AgentSdkHarness.StopSession` | crates/agent-sdk-harness/src/harness.rs:363-376 | removes the session, destroys its workspace, releases the slot; an unknown id changes nothing |
| `Sessions.AgentSdkHarness.RunQuery` | crates/agent-sdk-harness/src/harness.rs:261-306 | an invalid working directory is refused; the throwaway workspace is destroyed whether or not the query succeeds |
| `Sessions.AgentSdkHarness.Find` | crates/agent-sdk-harness/src/session.rs:124-126 | the search answers registration |
| `Sessions.AgentSdkHarness.Retain` | crates/agent-sdk-harness/src/session.rs:132-134 | keeps the other sessions in order |
| `AgentTurn.RecordRoundTrip` | crates/agent/src/replay.rs:117-182 | recording a completion and reading it back is the identity |
| `AgentTurn.DecodesIff` | crates/agent/src/replay.rs:117-148 | a record decodes to a completion if and only if it carries its text, usage, finish reason by name, and calls, each an object with the three string fields; a record that carries none is a decoding error |
| `AgentTurn.InferenceClient.Infer` | crates/agent/src/replay.rs:86-115 | a replay client serves its records in order, ignores the request, and advances only on success |
| `AgentTurn.RemainingCounts` | crates/agent/src/replay.rs:81-101 | after any requests `remaining` is the number of records less the requests answered, which are exactly those before the first missing, empty or undecodable record; it is zero exactly when every record has been served |
| `AgentTurn.Agent.DispatchTools` | crates/agent/src/pipeline.rs:204-253 | a round that succeeds gives, whatever order the tasks finish in, one tool message per call in call order with the text that the call's own task returned; one that fails gives the first unknown name, or else the first failing task in call order |
| `AgentTurn.ToolErrorMeans` | crates/agent/src/pipeline.rs:204-241 | a round succeeds exactly when every call names a tool and every task succeeds, and otherwise fails with the error of the first such call |
| `AgentTurn.Agent.Finish` | crates/agent/src/pipeline.rs:224-240 | every task leaves its own result in its own slot |
| `AgentTurn.Agent.Turn` | crates/agent/src/pipeline.rs:149-284 | the loop's outcome, emitted events and served requests, for completed and failed turns, any client and any completion order |
| `AgentTurn.CompletedTurn` | crates/agent/src/pipeline.rs:149-283 | a completed turn has a well-formed transcript, between one and `max(1, max_tool_iterations)` inferences, as many as iterations consumed, each asked on the transcript so far, summed usage, concatenated calls, and one streamed event per reported call |
| `AgentTurn.FailedTurn` | crates/agent/src/pipeline.rs:160-254 | every failed turn: what it was asked and received, the events it had emitted, and the error, which is the exhausted budget, the answer to the next request, or that of the failing tool round |
| `TurnLayout.CompletedTurnReads` | crates/agent/src/pipeline.rs:149-283 | a completed turn read off its parts: in the transcript each dispatched round is the assistant's text followed, each at its own place, by the text that each call's own task returned; each completion is the backend's answer to the transcript up to its round; all but the last asked for tools and the last did not, unless the iterations ran out; usage summed in each field, all calls, the events of each call |
| `TurnLayout.FailedTurnReads` | crates/agent/src/pipeline.rs:160-254 | the same of every failed turn up to where it failed: the iterations were used up, the backend denied the request on that transcript, or a tool of the last completion is unknown or fails |
| `AgentTurn.RecordThenReplay` | crates/agent/src/replay.rs:86-182 | a completed turn run again over the records of its completions gives the same transcript, text, usage, finish reason, calls and events, and leaves no record unserved |
| `AgentTurn.ShortReplayFails` | crates/agent/src/replay.rs:86-101 | with a record missing or empty the replay receives the completions before it, emits the events of their rounds, and ends in the error naming that step |
| `Redaction.RedactionMiddleware.BeforeModelCall` | crates/agent/src/middleware.rs:259-268 | every message keeps its kind, what is not text stays, and every text becomes what the patterns make of it one after the other, first pattern first; if each pattern is non-empty and compatible with the replacement, none occurs in any text of the batch |
| `Redaction.ReplaceIff` | crates/agent/src/middleware.rs:264 | what replacing one pattern yields, exactly: the text cut at its leftmost matches that do not overlap and joined again by the replacement |
| `Redaction.EmptyPatternEverywhere` | crates/agent/src/middleware.rs:264 | an empty pattern puts the replacement before, between and after all characters |
| `Redaction.FirstPatternFirst` | crates/agent/src/middleware.rs:263-265 | the order of the patterns matters: an earlier one breaks up what a later one would have matched |
| `Redaction.SpliceSafeIffCompatible` | crates/agent/src/middleware.rs:257-269 | a replacement can be inserted anywhere without creating a pattern if and only if the two nowhere overlap in agreement |
| `Redaction.RedactionIsComplete` | crates/agent/src/middleware.rs:257-269 | after redaction no configured pattern occurs in any text, if each is non-empty and compatible with the replacement |
| `Redaction.RemovedFromEveryTextIffCompatible` | crates/agent/src/middleware.rs:257-269 | a pattern that does not overlap itself is removed from every text if and only if it is compatible with the replacement |
| `Redaction.OverlapNeedNotShow` | crates/agent/src/middleware.rs:257-269 | replacing `aa` by `ab` removes `aa` from every text although the two overlap |
| `Redaction.RemovedFromEveryTextIffFromShort` | crates/agent/src/middleware.rs:257-269 | any pattern, self-overlapping or not, is removed from every text if and only if it is removed from every text of bounded length over its own characters |
| `RateLimit.RateLimiter.TryTakeNow` | crates/agent/src/middleware.rs:207-219 | refines the bucket step |
| `RateLimit.RateLimiter.BeforeModelCall` | crates/agent/src/middleware.rs:224-235 | the waiting call is granted at its first grantable poll, or gives up after exactly 201 polls, whatever other callers do meanwhile |
| `RateLimit.WaitingIsCalling` | crates/agent/src/middleware.rs:224-235 | the polls of a waiting caller and the calls of others in between are one ordinary sequence of calls on the bucket, to which the rate bound applies |
| `RateLimit.TokensStayWithin` | crates/agent/src/middleware.rs:207-219 | tokens stay within zero and capacity over every run |
| `RateLimit.Conservation` | crates/agent/src/middleware.rs:207-219 | tokens left plus grants never exceed what was there plus what flowed in |
| `RateLimit.RateBound` | crates/agent/src/middleware.rs:207-219 | between any two calls at times s and t of any run with a monotone clock at most capacity + refill * (t - s) calls are granted |
| `RateLimit.BurstIsExact` | crates/agent/src/middleware.rs:207-219 | the bound is reached: a burst on a full bucket is granted exactly up to capacity |
| `RateLimit.LoneWaiterGivesUpIff` | crates/agent/src/middleware.rs:224-235 | a lone caller gives up if and only if the capacity is zero, or nothing refills a bucket with less than one token |
| `ContextAssembly.TokenBudget.Consume` | crates/core/src/budget.rs:23-29 | fails without effect exactly when the amount exceeds what remains |
| `ContextAssembly.ContextAssembler.Assemble` | crates/context/src/lib.rs:48-88 | fast and slow path return the greedy and lexicographically greatest choice that fits, in input order; the budget drops by exactly its cost, within 32 bits; the call never fails |
| `ContextAssembly.ContextAssembler.Pack` | crates/context/src/lib.rs:71-79 | the loop keeps a greedy choice: each dropped fragment exceeded the budget on top of those kept before it |
| `ContextAssembly.ContextAssembler.Fragments` | crates/context/src/lib.rs:80-81 | sorting the kept entries by position restores the input order |
| `ContextAssembly.ContextAssembler.Total` | crates/context/src/lib.rs:56 | the sum of the token estimates |
| `ContextAssembly.SortedSorts` | crates/context/src/lib.rs:70 | the sort orders the entries and keeps exactly them |
| `ContextAssembly.GreedyIsGreatest` | crates/context/src/lib.rs:71-79 | a greedy choice is the greatest of all fitting ones, in (priority descending, position ascending) order |
| `ContextAssembly.GreatestIsUnique` | crates/context/src/lib.rs:43-51 | there is at most one such choice |
| `ContextAssembly.SmallerFragmentSurvives` | crates/context/src/lib.rs:68-79 | a fragment of low priority can survive while one of higher priority is dropped |
| `ContextAssembly.EvictsByPriorityIff` | crates/context/src/lib.rs:68-79 | eviction is lowest priority first if and only if no fragment after the first that exceeds the budget would fit in its place |
| `SignalRpc.Writer.WriteAll` | crates/channel-provider-signal/src/listener.rs:227-260 | the socket receives every frame in order, each ending in a newline, up to the stop flag or to the part of a frame whose write fails |
| `SignalRpc.OneNewline` | crates/channel-provider-signal/src/listener.rs:243-245 | a frame goes out as it is, with exactly one newline more if it does not end in one |
| `SignalRpc.CutStream` | crates/channel-provider-signal/src/listener.rs:124-141 | from any beginning of the stream the reader gets the frames that arrived whole, unchanged and in order, and at most one line more, a beginning of the next frame |
| `SignalRpc.FramingRoundTripIff` | crates/channel-provider-signal/src/listener.rs:124-141 | written frames read back unchanged, one line each and in order, if and only if none contains a newline or ends in a carriage return |
| `SignalRpc.Listener.RegisterId` | crates/channel-provider-signal/src/listener.rs:50-54 | a new entry and a listening send for any id; for a fresh id a step of the demultiplexer |
| `SignalRpc.Listener.ForgetId` | crates/channel-provider-signal/src/listener.rs:57-59 | takes the entry of any id out; for a send that is leaving a step of the demultiplexer |
| `SignalRpc.Listener.HandleFrame` | crates/channel-provider-signal/src/listener.rs:176-225 | is a step of the demultiplexer; fails exactly on frames that do not parse |
| `SignalRpc.Listener.Drain` | crates/channel-provider-signal/src/listener.rs:167-173 | the drain, in any order of the map, is the closing step of the demultiplexer |
| `SignalRpc.FulfilledAtMostOnce` | crates/channel-provider-signal/src/listener.rs:47-59 | in every interleaving each send is fulfilled at most once and a finished send leaves no pending entry |
| `SignalRpc.CloseAnswersAll` | crates/channel-provider-signal/src/listener.rs:167-173 | when the reader closes, no entry is left and every listening send has a value |
| `SignalRpc.RepliesAreGenuine` | crates/channel-provider-signal/src/listener.rs:184-202 | every reply handed over came from a well-formed response frame with that send's own id |
| `SignalRpc.OutcomesAreGenuine` | crates/channel-provider-signal/src/lib.rs:163-225 | what the run must hold for each way a send can end: its own write failed, its own timeout, the reader closed or a response carried the closed marker, or the peer answered its own id with exactly the error, the missing result, the missing timestamp or the timestamp that is reported |
| `SignalRpc.AcksAreGenuine` | crates/channel-provider-signal/src/lib.rs:163-225 | a send is acknowledged with a timestamp only if the peer answered its own id with that timestamp |
| `SignalRpc.FirstAnswerCounts` | crates/channel-provider-signal/src/listener.rs:184-202 | a send that receives something ends with what the first response with its id since its registration means, or the close, whichever came first |
| `SignalRpc.AnAnswerArrives` | crates/channel-provider-signal/src/lib.rs:163-225 | after any run a fresh send can be registered, written and answered, and ends with what that answer means |
| `SignalRpc.EverySendCanFinish` | crates/channel-provider-signal/src/lib.rs:163-225 | from any state a send can finish by steps of its own, and leaves no pending entry |
| `SpendLedger.LedgerObject.RecordSpend` | crates/agent/src/cost.rs:183-204 | refines the record step on all roll-ups |
| `SpendLedger.LedgerObject.SpendBy` | crates/agent/src/cost.rs:215-222 | reads the entry of the canonical key, zero if there is none |
| `SpendLedger.LedgerObject.CheckBudget` | crates/agent/src/cost.rs:240-262 | refines the check; the ledger stays as it is |
| `SpendLedger.TablesReadTheLog` | crates/agent/src/cost.rs:183-204 | every table entry is the true sum over its own spends, reduced to its machine word |
| `SpendLedger.CheckIsExact` | crates/agent/src/cost.rs:231-262 | while the scope's true spend fits its word, a check fails exactly when it exceeds the cap, and reports it |
| `SpendLedger.CheckIsExactIffFits` | crates/agent/src/cost.rs:231-262 | a scope's checks are exact for every cap if and only if its true spend fits the word |
| `SpendLedger.TokenCapWraps` | crates/agent/src/cost.rs:183-204 | two spends of 2^31 tokens pass every token cap |
| `SpendLedger.RollUpsConserveModulo` | crates/agent/src/cost.rs:183-204 | on every log each of the three tables plus the unattributed spend makes up the total, as machine words |
| `SpendLedger.RollUpsConserve` | crates/agent/src/cost.rs:183-204 | while the totals fit their words the three tables each sum to the same attributed spend, which plus the unattributed spend is the total |
| `SpendLedger.CanonicalInjective` | crates/agent/src/cost.rs:41-45 | keys whose desk and strategy have no slash have distinct canonical forms |
| `SpendLedger.SpendByExactIffPlain` | crates/agent/src/cost.rs:215-222 | `spend_by` answers a key's own spend on every log if and only if the key has no slash |
| `SpendLedger.SpendByExactOnSlashFreeLog` | crates/agent/src/cost.rs:215-222 | on logs with slash-free desks and strategies it is exact whatever the decision ids are |
| `CliRun.CliRunner.AccumulateEvent` | crates/coding-cli-harness/src/headless.rs:145-208 | refines the accumulation step |
| `CliRun.CliRunner.RunOne` | crates/coding-cli-harness/src/headless.rs:57-143 | a run's text, usage, calls and exit code from the stream, the flushed events and the exit status; it ends as cancelled, or with the reason of the last finish event of the stream, completed if there is none, but with a process error where it would have completed and the child failed |
| `CliRun.StreamedReadsChunks` | crates/coding-cli-harness/src/headless.rs:64-92 | the stream is all chunks in order, up to the one before which cancellation was seen |
| `CliRun.CliRunner.Consume` | crates/coding-cli-harness/src/headless.rs:74-92 | the events of a chunk are accumulated and set the reason |
| `CliRun.CliRunner.Flush` | crates/coding-cli-harness/src/headless.rs:95-100 | trailing events are accumulated and do not set the reason |
| `CliRun.CliRunner.DrainPending` | crates/coding-cli-harness/src/headless.rs:122-131 | every pending call gets one synthetic-error record, in any order |
| `CliRun.PendingReadsTheStream` | crates/coding-cli-harness/src/headless.rs:154-181 | a call is pending exactly when its latest start was never finished, and its record is that start |
| `CliRun.CallsReadTheStream` | crates/coding-cli-harness/src/headless.rs:172-193 | the recorded calls are one per finish event in order, each with its outcome and the name and input of its own open start |
| `CliRun.TextIsDeltas` | crates/coding-cli-harness/src/headless.rs:150-153 | without a non-empty finish text the final text is all deltas |
| `CliRun.TextReadsTheStream` | crates/coding-cli-harness/src/headless.rs:199-205 | otherwise it is the last non-empty finish text followed by the later deltas |
| `CliRun.UsageReadsTheStream` | crates/coding-cli-core/src/result.rs:30-38 | usage is the sum of the usage events, with a cost exactly if some event had one |
| `CliRun.FinalCalls` | crates/coding-cli-harness/src/headless.rs:122-131 | the final records are one per finish event in order, then exactly one record per id whose latest start was never finished, with the name and input of that start and the synthetic error |
| `AvatarSync.TimecodeCounts` | crates/avatar-core/src/frame.rs:26-42 | the i-th timecode, read as hours, minutes, seconds and frames, is i modulo one day at every frame rate, zero counting as one, with every field in range |
| `AvatarSync.TimecodeRoundTrip` | crates/avatar-core/src/frame.rs:26-42 | within a day reading a timecode and building it again is the identity |
| `AvatarSync.QuantizedIsClose` | crates/avatar-harness/src/sync_manager.rs:153-162 | a sample in range becomes 32767 times itself, less than one step off, toward zero; one out of range the largest or smallest value; and nothing else |
| `AvatarSync.LittleEndianRoundTrip` | crates/avatar-harness/src/sync_manager.rs:159 | the two bytes of a sample read back as its signed value |
| `AvatarSync.PcmToS16le` | crates/avatar-harness/src/sync_manager.rs:155-162 | two bytes per sample, which as a 16-bit word in two's complement, low byte first, are the value of that sample |
| `AvatarSync.SyncManager.BuildFrames` | crates/avatar-harness/src/sync_manager.rs:66-113 | the least number of frames that takes up the duration; frame i carries the i-th timecode and the PCM bytes between the sample frames at which it and the next one begin; together they are the PCM prefix of the duration, without gap or overlap, with the stream's rate and channels |
| `AvatarSync.SyncManager.CutFrame` | crates/avatar-harness/src/sync_manager.rs:84-94 | a frame's slice lies between its own edges, which never cross |
| `Pipelines.Invoke` | crates/callable/src/pipeline.rs:117-146 | calls refine the meaning of callables |
| `Pipelines.CallPipeline` | crates/callable/src/pipeline.rs:119-146 | the stage loop refines the meaning of a stage list, stopping at the first error |
| `Pipelines.CallStage` | crates/callable/src/pipeline.rs:122-143 | one stage; an assign stage keeps the input and adds the result under its key |
| `Pipelines.CallFanOut` | crates/callable/src/pipeline.rs:183-201 | runs the branches in scheduler order and awaits them in key order |
| `Pipelines.ThenMeans` | crates/callable/src/pipeline.rs:51-59 | after `then` the pipeline so far runs and the callable is called on its result; an earlier error is the result and the callable is not called |
| `Pipelines.Pipeline.Passthrough` | crates/callable/src/pipeline.rs:62-71 | appends the identity; a pipeline is never empty |
| `Pipelines.PassthroughMeans` | crates/callable/src/pipeline.rs:62-71 | a pass-through changes neither result nor effects |
| `Pipelines.AssignMeans` | crates/callable/src/pipeline.rs:76-85 | after `assign` the callable is called on the result so far and its value extends that result under the key, every other field as it was, a non-object being kept under `input` |
| `Pipelines.Pipeline.FanOutWith` | crates/callable/src/pipeline.rs:90-102 | appends a fan-out over the collected branches |
| `Pipelines.Collect` | crates/callable/src/pipeline.rs:164-178 | collects the branches into the ordered map |
| `Pipelines.CollectedIsOrdered` | crates/callable/src/pipeline.rs:159-178 | branches come out in strictly ascending key order, the last one given for a key winning |
| `Pipelines.CollectedWereGiven` | crates/callable/src/pipeline.rs:159-178 | and only branches that were given come out |
| `Pipelines.RunAppend` | crates/callable/src/pipeline.rs:119-146 | running a concatenation is running the parts one after the other |
| `Pipelines.NestingIsSplicing` | crates/callable/src/pipeline.rs:104-146 | a built pipeline nested as a stage makes the same calls in the same order with the same result as its stages spliced inline |
| `Pipelines.PrimsInOrder` | crates/callable/src/pipeline.rs:119-146 | a pipeline of primitives calls them one after the other, each on the result of the one before, up to the first that fails, and ends as that call did |
| `Pipelines.FlattenPreserves` | crates/callable/src/pipeline.rs:38-201 | splicing all nested pipelines and dropping pass-through stages preserves meaning, for effectful and fallible callables and every scheduler |
| `Pipelines.FlattenIsFlat` | crates/callable/src/pipeline.rs:38-110 | and leaves no sequential stage that is a pipeline or a pass-through, at any depth, in fan-out branches and assign callables too |
| `Pipelines.FanOutIgnoresOrder` | crates/callable/src/pipeline.rs:183-201 | for pure branches neither the output nor the reported error depends on the order in which tasks complete |
| `Pipelines.FanOutRunsAll` | crates/callable/src/pipeline.rs:183-201 | with effects, in any scheduler's order, every branch is called exactly once on the fan-out's input; the output holds exactly each branch's value under its key, or the first error in key order |
| `Pipelines.DirectMeans` | crates/callable/src/pipeline.rs:183-201 | the output holds exactly every branch's value under its key; the error is that of the first failing branch in key order |

## Left out

- Sockets, HTTP, webhooks, processes, the filesystem and UI code: replaced by parameters.
- Timestamps, telemetry and the broadcast events of the channel and CLI harnesses; UUIDs are assumed fresh where a step takes a new id.
- Lost tasks: panics and dropped (cancelled) futures are not modelled.
- Each channel harness operation is one atomic step, although `open_thread` and the inbound loop update the cache before the store.
- The handles on cached threads: the harness keeps cached threads as values in a map, so a target or history changed through a `ThreadRef` held by a caller is not modelled.
- Extracting a reply from a callable's JSON answer, and the adapter of harness targets: the reply, if any, is a parameter of the inbound step.
- Full or closed queues between harness and worker; a queued message waits until its worker takes it, also when the provider is detached meanwhile.
- ChannelHarness.Harness.AdminSend: does not return what the worker makes of the message, because the worker runs concurrently; the combined system does (`ToldIffAcked`).
- Two sends under one JSON-RPC id: ids are fresh UUIDs; `RegisterId` then overwrites the entry, and what the earlier send is told is not modelled.
- `list_channels` and `list_threads`: sorting of summaries.
- The warm snapshot pool, the disposition of a workspace and the configuration lists of an SDK session: a sandbox that is asked to be destroyed counts as destroyed, as the code ignores the outcome.
- The counter of live sessions is an unbounded integer that shows its value modulo 2^64; `QuotaInEveryInterleaving` and `SoleStopsKeepQuota` speak of runs in which the quota and the operations in flight at one time together stay below 2^64.
- Resolving instructions, tools, memory and skills before the tool-call loop, the memory written after it, and argument hashes and timings in events.
- The finish reasons and completions come from the inference core, which is not part of this model; their serialized names are taken to be the snake-case ones that the repository's Python bindings use, and usage is summed without overflow.
- Tools of a turn are deterministic functions of iteration, position and call; without that a replayed turn need not repeat the live one.
- `f32` rounding in the rate limiter, the retry back-off and the sync manager: exact reals and integers instead.
- `u64` overflow of a sum of more than 2^32 token estimates in the context assembler.
- Parsing of Signal envelopes, the marker a peer could put into its own response (modelled, and read as a closed listener), and the stop flag of the reader loop.
- Building `spend` records from prices (`CostMeter`); the ledger's additions wrap as in a release build, where a debug build would panic.
- Vendor line parsers and the interactive CLI sessions; the `UsageSummary` of a run is a value inside the run object.
- Blendshapes, emotion and visemes of an avatar frame.
- Labels and call contexts of pipelines; the branches of a fan-out run in any order, but each branch as a whole; after a failing branch the other fan-out tasks are run to completion, as spawned tasks are.
- RedactionIsComplete: for several patterns at once the condition is sufficient and not necessary; for one pattern the exact condition is `RemovedFromEveryTextIffFromShort`, and `RemovedFromEveryTextIffCompatible` where it does not overlap itself.
