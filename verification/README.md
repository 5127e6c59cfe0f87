# Verified models of the agere runtime's protocols

This project models the parts of the repository where several steps, several maps or exact arithmetic have to work
together, and proves what they promise for every input and every run.

- **Tool names** (`ToolNames`, `Ordering`, `Qualification`, `RawIdentities`,
  `QualificationNames`, `QualificationPasses`): `qualify_tools` turns raw MCP tools
  into a map keyed by unique model-visible names of at most 64 bytes.
- **Remote app server** (`Remote`, `RemoteRuns`, `RemoteObjects`, `RemoteConnection`): the websocket worker with its pending-request map,
  the initialize handshake and the event stream.
- **Analytics reducer** (`Reducer`, `ReducerObject`, `ReducerHistory`, `ReducerTurns`, `ReducerFields`,
  `ReducerOrders`): five maps fed by facts in any order, and the events they add up to. `Dedupe` is the bounded filter in front of it.
- **MCP startup** (`Startup`): concurrent server startup with cancellation at any point, and the closing summary.
- **Tool listing and cache** (`Listing`, `ListingFetch`, `ListingManager`, `ListingOrder`, `ListingObjects`): startup snapshot, disk cache, fetched list, hard refresh, and
  the filters that `call_tool` shares with them.
- **Elicitation** (`Elicitation`): the responder map between servers that ask and users who answer.
- **DER trimming** (`Der`): where the first DER item of a certificate section ends, in checked machine arithmetic.
- **Retry** (`Retry`): the bounded retry loop with saturating, jittered backoff.
- **Derive** (`Derive`): the `ExperimentalApi` derive as a small compiler whose output is given a semantics and compared with
  its meaning.

Code that updates state in place is modelled by classes and loops (`QualificationPasses`, `RemoteObjects`,
`ReducerObject`, `ListingObjects`, and the methods of the other modules), each proved equal to a specification function;
the theorems about whole runs are about those functions. Interleavings are modelled as sequences of atomic steps:
a theorem quantified over all step sequences holds for every schedule. SHA-1, connector permission, callable-name
normalisation, random jitter, the outcome of every read, write and fetch, and the order in which hash maps are walked
are parameters.

## Where the code and its promises differ

Each difference is shown at an input and bounded by an exact condition.

- Raw tool identities are joined with NUL characters. Two tools can share one, and one of them is then dropped
  (`RawIdentities.NulConfusesIdentities`). A tool's identity is its own exactly when none of its five raw fields contains
  a NUL (`RawIdentities.IdentityDeterminesTool`).
- The attempt counter of the name allocator is a saturating `u32`, so the loop can repeat its last attempt for ever
  (`ToolNames.NeverReturns`). It does so exactly when the readable name and the names of all attempts are taken
  (`ToolNames.NeverReturnsIff`); the model's result is then `None`.
- Hashing keeps two raw namespaces apart that sanitise alike, but a namespace that looks hashed to begin with can meet a
  hashed one (`QualificationNames.LiteralMeetsHashed`, for every digest). When neither looks hashed, two raw namespaces
  share a model-visible one exactly when they sanitise alike and their hashes coincide
  (`QualificationNames.NamespacesSeparate`).
- A response that finds its key held by a request of the other kind takes that request away without an event
  (`ReducerHistory.WrongKindConsumes`). `ReducerHistory.OnlyConsumesIff` lists exactly the cases in which a pending
  request is lost like that.
- A turn's start time can be taken away again by a later TurnStarted without one
  (`ReducerFields.StartTimeCanBeCleared`): every part of an event is its last supplier's (`ReducerFields.EventFromLast`).
- A cache file that was not written by this program can make the apps server list tools under another server's name
  (`Listing.ForeignCacheIsShown`). Everything shown in every run may be called exactly when that holds of what the apps
  server would show of the file (`ListingManager.SurfaceableIffHarmless`).
- A cache file can also shadow another server's tool: which of two tools with one raw identity is listed then depends on
  the order in which the client map is walked (`ListingOrder.CacheShadowsTool`). What is kept is the same in every order
  exactly when no two servers keep different tools with one identity (`ListingOrder.KeptForgetsOrderIff`), which holds in
  every run from a file of the apps server's own (`ListingOrder.OwnFileForgetsOrder`).
- The order of a turn's start and config shows in its event's image count (`ReducerOrders.OrdersDifferByImages`, which
  says exactly when), and in nothing else.
- After a skipped cache write an older file hides tools that may be called (`Listing.OldCacheHidesTool`); a tool is shown
  exactly when the list in force offers it and a call is let through (`Listing.ShownIffCallable`).
- Section 8.1.3.5 c) of ITU-T X.690 reserves the length octet 255. The code accepts it (`Der.ReservedIsAccepted`);
  `Der.StandardUnlessReserved` shows that those are the only inputs on which it departs from the standard's definite
  forms.
- `attempt as u32 - 1` in `backoff` overflows on exactly the positive multiples of 2^32 (`Retry.OverflowsIff`): a panic with
  overflow checks, a wrap without. A policy of fewer than 2^32 attempts never gets there.
- Jitter can make a later delay shorter than an earlier one (`Retry.SaturatedMayShrink`), exactly when the later raw delay
  is the largest `u64` and the earlier one is above about nine elevenths of it (`Retry.DelaysDoNotShrink`).
- The dedupe set is emptied before the key is looked up, so the call that finds it full accepts even a key it holds
  (`Dedupe.RepeatIsAccepted` is a run that does, `Dedupe.FullSetAcceptsRepeats` says so of every clear). A call departs from an unbounded seen-set exactly when its key came before the last
  clear and not since (`Dedupe.AgreesWithSeenSet`).
- The derive decides presence by the spelling of a field's type: an empty option behind an alias counts as present
  (`Derive.AliasCountsAsPresent`). Test and presence agree exactly when a built-in name is written out or the value is
  present (`Derive.PresenceAgrees`), and `Derive.FirstDeclaredUse` says exactly when this changes the result.
- Reasons on enum variants are never registered as such (`Derive.EnumReasonUnregistered`): a reason is registered exactly
  under the structs that gate a field with it (`Derive.RegistersIff`).

## Model

| member | source | states |
|---|---|---|
| ToolNames.SanitizeName | agere-mcp/src/mcp/mod.rs:342-357 | the character loop computes the sanitised name |
| ToolNames.Sanitize | agere-mcp/src/mcp/mod.rs:342-357 | the result is never empty, uses only `[A-Za-z0-9_]`, and a clean non-empty name is left alone |
| ToolNames.CleanCharIs | agere-mcp/src/mcp/mod.rs:342-357 | the characters that are kept, in ASCII codes: digits, letters of both cases and the underscore |
| ToolNames.NamespaceHashSeparates | agere-mcp/src/tools.rs:307-318 | a hashed namespace tells two raw identities apart exactly when their hash suffixes differ |
| ToolNames.AppendNamespaceHash | agere-mcp/src/tools.rs:307-318 | the hash goes before a trailing delimiter, which survives |
| ToolNames.FitShape | agere-mcp/src/tools.rs:324-341 | a fitted name is a prefix that does not depend on the hash input, then the 13-character suffix; it is clean and at most 64 bytes |
| ToolNames.FitText | agere-mcp/src/tools.rs:324-341 | a fitted name is the readable text cut to 51 characters, an underscore and the first twelve digits of the digest, and a namespace of up to 51 characters survives whole |
| ToolNames.HashInputsDiffer | agere-mcp/src/tools.rs:357-367 | the first attempt hashes the raw identity, a later one the identity, a NUL and its number in decimal, so no two attempts hash the same text |
| ToolNames.FirstFreeAttempt | agere-mcp/src/tools.rs:343-369 | the retry loop with its saturating counter finds what the reference search finds |
| ToolNames.FirstFreeIsFirst | agere-mcp/src/tools.rs:343-369 | the attempt found is the first whose name is free, and there is no answer exactly when no attempt is free |
| ToolNames.UniqueCallableParts | agere-mcp/src/tools.rs:343-369 | the allocated name is added to the used names, and nothing else changes |
| ToolNames.UniqueSound | agere-mcp/src/tools.rs:343-369 | every allocated name is new, clean and at most 64 bytes |
| ToolNames.NeverReturnsIff | agere-mcp/src/tools.rs:343-369 | an allocation never returns exactly when the readable name and the names of all attempts up to the counter's limit are taken |
| ToolNames.NeverReturns | agere-mcp/src/tools.rs:343-369 | for every digest and tool there are names whose being taken stops the allocation from ever returning |
| ToolNames.AttemptsDiffer | agere-mcp/src/tools.rs:324-369 | two attempts give different names exactly when their hash suffixes differ |
| ToolNames.AllocationStops | agere-mcp/src/tools.rs:343-369 | the loop ends within one more attempt than there are used names when that many suffixes differ (pigeonhole) |
| Ordering.SortSorts | agere-mcp/src/tools.rs:213 | sorting by raw identity gives a strictly increasing order when identities differ |
| Ordering.LessIff | agere-mcp/src/tools.rs:213 | identities are ordered by the first character in which they differ, a proper prefix first |
| Ordering.SortForgetsOrder | agere-mcp/src/tools.rs:213 | the sorted list depends only on which candidates there are |
| RawIdentities.IdentityDeterminesTool | agere-mcp/src/tools.rs:145-154 | a tool's identity is shared only by tools with the same five raw fields exactly when none of those fields contains a NUL |
| RawIdentities.NulConfuses | agere-mcp/src/tools.rs:145-154 | every tool with a NUL in a raw field has a different tool with the same identity |
| RawIdentities.NulFreeByIdentity | agere-mcp/src/tools.rs:145-154 | whether a tool's fields are NUL-free can be read off its identity |
| RawIdentities.NulConfusesIdentities | agere-mcp/src/tools.rs:145-154 | two different servers' tools whose identities coincide, one of which is dropped |
| Qualification.QualifySound | agere-mcp/src/tools.rs:138-229 | the result lists each kept tool once under its own clean key of at most 64 bytes, the key is the entry's namespace followed by its name, and every other field is unchanged |
| Qualification.QualifyCount | agere-mcp/src/tools.rs:138-229 | one entry per distinct raw identity: no insertion overwrites another |
| Qualification.QualifyDependsOnKeptTools | agere-mcp/src/tools.rs:169-229 | the map is a function of the set of kept tools alone |
| Qualification.QualifyOrderIndependent | agere-mcp/src/tools.rs:169-229 | tools with distinct identities give the same map in every order |
| Qualification.QualifyStops | agere-mcp/src/tools.rs:215-228 | the whole call returns when no tool's first n hash suffixes repeat, n being the number of kept tools |
| Qualification.ReadableNamesKept | agere-mcp/src/tools.rs:138-229 | when names are short and nothing collides, every tool is listed under its sanitised name with no hash |
| QualificationNames.PreparedTexts | agere-mcp/src/tools.rs:169-211 | before allocation each kept tool has its sanitised namespace and name; the namespace gets an underscore and twelve digits of its own raw identity's digest, at the end or before a trailing double underscore, exactly when another kept tool has that sanitised namespace from a different raw one, and the name likewise within its namespace |
| QualificationNames.TwinsSeparate | agere-mcp/src/tools.rs:169-187 | two raw namespaces that sanitise alike become different exactly when the first twelve digits of their digests differ |
| QualificationNames.NamespacesSeparate | agere-mcp/src/tools.rs:169-187 | two different raw namespaces, neither of which looks hashed, end up the same exactly when they sanitise alike and their digits coincide |
| QualificationNames.LiteralMeetsHashed | agere-mcp/src/tools.rs:169-187 | for every digest three tools of which two from differently sanitised namespaces end up in one, because one of those looks hashed |
| QualificationNames.QualifyExactly | agere-mcp/src/tools.rs:138-229 | the whole result: in the order of raw identities each kept tool is listed under those two texts if together they have at most 64 characters and are not used yet, and otherwise under the first free of the hashed attempts; nothing else is listed |
| QualificationNames.ListedNamespace | agere-mcp/src/tools.rs:215-228 | an entry has its prepared namespace and name when they fit and are free, and otherwise at least the first 51 characters of that namespace |
| QualificationPasses.CollectCandidates | agere-mcp/src/tools.rs:142-167 | the first pass keeps the first tool of every raw identity, in order |
| QualificationPasses.CollidingIffTwo | agere-mcp/src/tools.rs:169-202 | counting identities per key finds exactly the keys two different identities share |
| QualificationPasses.CollidingKeys | agere-mcp/src/tools.rs:169-202 | the grouping loop over a map of sets computes the colliding keys |
| QualificationPasses.RenameNamespaces | agere-mcp/src/tools.rs:169-187 | the pass hashes exactly the namespaces that another candidate has with a different raw identity, each with its own identity and before a trailing delimiter, and changes nothing else |
| QualificationPasses.RenameTools | agere-mcp/src/tools.rs:189-211 | the pass hashes exactly the names that another candidate has in the same namespace with a different raw identity, and changes nothing else |
| QualificationPasses.AllocateNames | agere-mcp/src/tools.rs:215-228 | the final loop over `used_names` and the result map |
| QualificationPasses.QualifyTools | agere-mcp/src/tools.rs:138-229 | all passes together compute the specification the theorems are about |
| RemoteObjects.RemoteWorker.TakeCommand | app-server-client/src/remote.rs:223-310 | one command's whole effect on pending map, replies, events and writes; in particular a command other than a request is told whether its write or close succeeded |
| RemoteObjects.RemoteWorker.ReceiveMessage | app-server-client/src/remote.rs:312-456 | one server message's whole effect |
| RemoteObjects.RemoteWorker.DrainPending | app-server-client/src/remote.rs:459-467 | draining in any order sends every pending responder the exit error once and sends nothing else |
| RemoteObjects.RemoteWorker.Loop | app-server-client/src/remote.rs:212-468 | the select loop and its drain reach the state that the run function gives, for every input sequence |
| RemoteRuns.PendingFollowsInputs | app-server-client/src/remote.rs:224-325 | after any inputs the map holds, for each id, the earliest request that nothing has answered since |
| RemoteRuns.HeldResponder | app-server-client/src/remote.rs:224-325 | a responder is held exactly while its request is unanswered and was no duplicate |
| RemoteRuns.ExactlyOneReply | app-server-client/src/remote.rs:224-310 | when the worker exits every command it took has exactly one reply: for a request duplicate error, write failure, the first later answer with its id, or the drain, and for any other command success or an error as its write went |
| RemoteRuns.CommandOutcome | app-server-client/src/remote.rs:258-309 | from the turn that takes it on, and after the exit too, a command other than a request has been told exactly that its write or close succeeded, or exactly that it failed |
| RemoteRuns.StopsIff | app-server-client/src/remote.rs:212-468 | a running worker stops exactly at a shutdown, a closed command queue, a failed write of a new request or of a rejection, invalid JSON, a close, a transport error, the end of the stream, or an event for a consumer that is gone |
| RemoteRuns.AtMostOneReply | app-server-client/src/remote.rs:224-325 | while the worker runs only open requests are without a reply and no command has two |
| RemoteRuns.StoppedForGood | app-server-client/src/remote.rs:457-468 | after the exit nothing changes any more |
| RemoteRuns.DuplicateIsHarmless | app-server-client/src/remote.rs:225-232 | a request is refused with an error to its own responder, and nothing else happens, exactly when an earlier request with its id is unanswered |
| RemoteRuns.UnmatchedAnswerIsInert | app-server-client/src/remote.rs:315-325 | a response or error changes nothing exactly when no request with its id is waiting |
| RemoteRuns.EventsInWireOrder | app-server-client/src/remote.rs:326-351 | a consumer that stays has been sent exactly the decodable notifications and recognised requests, in wire order |
| RemoteRuns.DisconnectedIsLast | app-server-client/src/remote.rs:387-456 | on exit at most one `Disconnected` follows, as the last event, exactly when there is an exit error |
| RemoteRuns.WritesFollowInputs | app-server-client/src/remote.rs:352-384 | the attempted writes of a run are determined by its inputs; each unrecognised request causes one -32601 error with its own id (section 5.1 of JSON-RPC 2.0) |
| RemoteConnection.AwaitInitialize | app-server-client/src/remote.rs:700-791 | the handshake loop returns the result, queued events and rejections that its frames determine |
| RemoteConnection.InitializeConnection | app-server-client/src/remote.rs:680-803 | request, loop and confirmation, with the failure of either write and the full list of attempted writes |
| RemoteConnection.ConnectsIff | app-server-client/src/remote.rs:680-803 | the connection is made exactly when both handshake writes succeed and an initialize response comes before any frame that ends or fails it |
| RemoteConnection.QueuedIsWireOrder | app-server-client/src/remote.rs:700-803 | the queued handshake events are the decodable ones in wire order |
| RemoteConnection.RejectsAlike | app-server-client/src/remote.rs:731-748 | the handshake rejects what the worker would: exactly the unknown requests, with -32601 and their own id |
| RemoteConnection.RemoteClient.NextEvent | app-server-client/src/remote.rs:602-607 | handshake events first, then the channel; nothing is lost, repeated or reordered |
| RemoteConnection.ConnectionStream | app-server-client/src/remote.rs:312-456 | from the first handshake frame to the exit the consumer's stream is the decodable wire in order and then at most one `Disconnected`, which occurs nowhere else |
| RemoteConnection.RunConnection | app-server-client/src/remote.rs:141-475 | handshake, worker and consumer together: what the consumer has been given is at any moment a prefix of that stream, and in the end all of it |
| RemoteConnection.Consume | app-server-client/src/remote.rs:602-607 | a consumer that reads while events arrive loses, repeats and reorders none, in any interleaving |
| ReducerObject.AnalyticsReducer.IngestFact | analytics/src/reducer.rs:157-234 | one fact's whole effect on the five maps and the event list |
| ReducerObject.AnalyticsReducer.IngestRequest | analytics/src/reducer.rs:307-336 | only turn start and steer requests are recorded, under connection and id, with the number of places of their input that hold an image |
| Reducer.NumInputImagesCounts | analytics/src/reducer.rs:985-990 | the image count of a request is the number of places of its input that hold an image or a local image |
| ReducerObject.AnalyticsReducer.IngestResponse | analytics/src/reducer.rs:485-552 | lifecycle, start and steer responses update maps and events as specified, everything else is ignored |
| ReducerObject.AnalyticsReducer.IngestErrorResponse | analytics/src/reducer.rs:554-602 | an error consumes its key and only a pending steer emits an event |
| ReducerObject.AnalyticsReducer.EmitThreadInitialized | analytics/src/reducer.rs:663-699 | both thread maps are written together, and only for a known connection |
| ReducerObject.AnalyticsReducer.IngestCompaction | analytics/src/reducer.rs:701-740 | emits only when connection and metadata of the thread are known |
| ReducerObject.AnalyticsReducer.IngestGuardianReview | analytics/src/reducer.rs:271-305 | emits only when the thread's connection is known |
| ReducerObject.AnalyticsReducer.EmitTurnSteerEvent | analytics/src/reducer.rs:767-803 | emits only when connection and thread metadata are known |
| ReducerObject.AnalyticsReducer.MaybeEmitTurnEvent | analytics/src/reducer.rs:805-859 | emits a ready turn's event and forgets the turn, otherwise does nothing |
| ReducerHistory.ConnectionsFollowFacts | analytics/src/reducer.rs:236-259 | a connection is known once initialized, with its latest metadata |
| ReducerHistory.ThreadsFollowFacts | analytics/src/reducer.rs:663-699 | a thread is known exactly when a lifecycle response arrived on an initialized connection, with the metadata and connection of the latest one |
| ReducerHistory.LinkedAlways | analytics/src/reducer.rs:663-699 | in every reachable state both thread maps have the same keys and point at known connections |
| ReducerHistory.OnlyUnknownThreadsDropped | analytics/src/reducer.rs:271-305 | compaction and guardian facts are dropped exactly for unseen threads: the later drops are unreachable |
| ReducerHistory.RequestsFollowFacts | analytics/src/reducer.rs:307-336 | the pending map holds exactly the requests neither consumed nor replaced since, with their payload |
| ReducerHistory.UnmatchedIsInert | analytics/src/reducer.rs:519-585 | a response or error changes and emits nothing exactly when its key is not pending |
| ReducerHistory.OnlyConsumesIff | analytics/src/reducer.rs:519-602 | a response or error that finds its key pending does no more than remove it exactly when the kinds differ, a start is refused, a steer cannot be reported (and, if accepted, its turn has no entry), or an accepted start tells an unready turn nothing new |
| ReducerHistory.WrongKindConsumes | analytics/src/reducer.rs:742-752 | a run in which a start response takes a pending steer away, whose own response then finds nothing |
| ReducerHistory.SecondAnswerIsInert | analytics/src/reducer.rs:519-585 | the second answer for a key is inert unless the key was requested again in between |
| ReducerHistory.EntriesBacked | analytics/src/reducer.rs:338-360 | the connection, config and completion of a turn entry come from earlier facts of that turn |
| ReducerHistory.TurnEventBacked | analytics/src/reducer.rs:805-859 | every turn event has a TurnStart request and accepted response with one connection and id, a config and a completion before it, and carries the metadata of the latest Initialize and lifecycle response |
| ReducerTurns.StartAcceptedIff | analytics/src/reducer.rs:519-543 | a TurnStart response is accepted exactly when a TurnStart request with its connection and id is outstanding |
| ReducerTurns.ExactlyOneTurnEvent | analytics/src/reducer.rs:805-859 | for every order and interleaving of a turn's start, config and completion, with Initialize and lifecycle response before the last of them, exactly one event is emitted, by that last one |
| ReducerTurns.TurnEventsBounded | analytics/src/reducer.rs:805-859 | over every run a turn has no more events than completions and no more than resolved configs |
| ReducerTurns.SteerEventsBounded | analytics/src/reducer.rs:742-803 | over every run there are no more steer events than steer requests |
| ReducerTurns.SteerCountIsMatches | analytics/src/reducer.rs:742-765 | an entry's steer count is the number of steer responses matched since it was created |
| ReducerTurns.EmittedSteerCount | analytics/src/reducer.rs:805-859 | so is the steer count of every emitted turn event |
| ReducerFields.EntryFromLast | analytics/src/reducer.rs:338-381 | every part of a turn entry is what the last fact to supply it said, since the entry was created |
| ReducerFields.EventFromLast | analytics/src/reducer.rs:805-859 | every field of an emitted turn event is what the last fact to supply it said since the entry was created, the emitting fact included: the image count of a start is the number of images in the one outstanding request it answers, negative numbers count as missing; client and thread metadata are the latest, and the steer count is that of the matched responses |
| ReducerFields.StartTimeCanBeCleared | analytics/src/reducer.rs:604-628 | a TurnStarted without a time takes an earlier one's away |
| ReducerFields.SteerEventBacked | analytics/src/reducer.rs:742-803 | every steer event answers the outstanding steer request with its connection and id, repeats its thread, expected turn and time, counts the images in its input, and carries the rejection's reason and the latest client and thread metadata |
| ReducerOrders.ThreeFactsEmit | analytics/src/reducer.rs:338-360 | in each of the six orders a turn's start, config and completion emit one event whose every field is given |
| ReducerOrders.ThreeFactsCountImages | analytics/src/reducer.rs:519-543 | over a run that event counts the images of the config, or, if the config comes first, of the outstanding request that the start answers |
| ReducerOrders.OrdersDifferByImages | analytics/src/reducer.rs:519-543 | two orders emit the same event exactly when start and config keep their order or bring the same image count; otherwise only that count differs |
| Startup.SummarizeOutcomes | agere-mcp/src/connection_manager.rs:246-260 | the summary loop over the joined outcomes |
| Startup.SummarizeFiles | agere-mcp/src/connection_manager.rs:246-260 | the three lists hold exactly the servers of each outcome, without repetition, and as many in all |
| Startup.EveryRunLogs | agere-mcp/src/connection_manager.rs:158-268 | in every interleaving a server is announced at most once, reports at most once and never before that, and the summary comes once, last, after every report |
| Startup.SummaryAgrees | agere-mcp/src/connection_manager.rs:158-268 | once the summary is out each enabled server was announced once and reported once, and the lists partition the enabled servers by their logged reports |
| Startup.ReportExplained | agere-mcp/src/connection_manager.rs:209-238 | in every interleaving a server that reported was resolved once and checked once after that; it reported Cancelled if its token had fired by the check, and otherwise exactly what its client came to |
| Startup.SummaryExplained | agere-mcp/src/connection_manager.rs:202-268 | the summary lists a server as cancelled exactly when its token had fired by its check, and otherwise as ready or failed exactly as its client came out |
| Startup.CancellationWins | agere-mcp/src/connection_manager.rs:209-238 | a token that fires before a server's outcome is decided makes it report Cancelled, even if its client came up |
| Startup.CancelledWasCancelled | agere-mcp/src/connection_manager.rs:209-238 | no server reports Cancelled unless its token fired |
| Startup.StepsTaken | agere-mcp/src/connection_manager.rs:158-268 | apart from cancellations a run takes at most four steps for each server and one for the summary |
| Startup.NeverStuck | agere-mcp/src/connection_manager.rs:158-268 | until the summary is out a run waits for nothing but client futures: some task can move, or every unreported server waits for its client |
| ListingObjects.ToolCache.Write | agere-mcp/src/agere_apps.rs:147-232 | only the apps server writes; a completed write replaces the file, a skipped one keeps it |
| ListingObjects.ManagedServer.constructor | agere-mcp/src/rmcp_client.rs:147-155 | the snapshot is the filtered cache hit, for the apps server only |
| ListingObjects.ManagedServer.FinishStartup | agere-mcp/src/rmcp_client.rs:503-541 | fetch, write, filter, and the flag raised last; a failed fetch leaves the file alone |
| ListingObjects.ManagedServer.ListedTools | agere-mcp/src/rmcp_client.rs:231-300 | snapshot while starting, cache hit or startup list when ready, snapshot after a failure, annotated |
| ListingObjects.ManagedServer.HardRefresh | agere-mcp/src/connection_manager.rs:337-381 | a failed refresh leaves the cache unchanged; otherwise the result is the qualified map of the filtered, masked tools, and after a completed write the next listing filters the same list |
| ListingObjects.AnnotateTools | agere-mcp/src/rmcp_client.rs:238-287 | the in-place loop masks, names and describes every tool and drops or reorders none |
| ListingObjects.ListAllTools | agere-mcp/src/connection_manager.rs:321-331 | gathers every server's list, skips those without one, and qualifies the result |
| Listing.UncachedIsTrusted | agere-mcp/src/rmcp_client.rs:334-403 | a fetched tool names its own server and its connector is absent or allowed, whatever the server sent; what is kept is told by ListingFetch.UncachedConserves |
| ListingFetch.UncachedConserves | agere-mcp/src/rmcp_client.rs:334-403 | a fetch conserves the raw tools: each of them, or on the apps server each whose connector is absent or allowed, becomes one tool, in order, with its own definition, the given instructions, the parts that naming gives, and connector fields only on the apps server |
| ListingFetch.StartupShowsFetched | agere-mcp/src/rmcp_client.rs:503-541 | after a startup whose write completed, every raw tool that the connector policy and the filter let by is shown, in order and as itself, and no other |
| ListingFetch.AnnotatePresents | agere-mcp/src/rmcp_client.rs:238-287 | what is shown of a tool differs from it only in the masked schema of apps tools, the plugin names of its connector or else its server, and a description that names them if there are any |
| ListingFetch.StartsIff | agere-mcp/src/rmcp_client.rs:442-451 | startup succeeds exactly for a non-empty name of letters, digits, underscores and hyphens whose tools could be fetched, and otherwise changes nothing but the outcome |
| ListingFetch.AllowsIff | agere-mcp/src/tools.rs:97-105 | a filter lets by the enabled names, or all without a list of them, minus the disabled ones |
| ListingFetch.LoadSelects | agere-mcp/src/agere_apps.rs:193-212 | a cache file is used exactly when it parses and has schema version 2, and then all of it that the connectors allow, in order |
| ListingFetch.CallToolIs | agere-mcp/src/connection_manager.rs:520-532 | a call is refused for an unknown server, then for one that did not start, then for a tool its filter refuses, and only then |
| Listing.ListedIsSafe | agere-mcp/src/rmcp_client.rs:96-120 | whichever source a listing uses and whatever the file holds, every tool shown passes the server's filter and the connector check |
| Listing.HitNamesServer | agere-mcp/src/agere_apps.rs:193-212 | a cache hit shows only the apps server's tools exactly when the usable tools in the file are its own |
| Listing.ForeignCacheIsShown | agere-mcp/src/agere_apps.rs:193-212 | a foreign cache file can surface a tool that its own server's filter refuses |
| Listing.WritesKeepOwnCache | agere-mcp/src/agere_apps.rs:214-232 | every write, done, skipped or torn, keeps the file the apps server's own |
| ListingManager.AlwaysSound | agere-mcp/src/connection_manager.rs:321-381 | in every state that startups and refreshes reach, in any order, with any write outcome and any first cache file, each client keeps its name and filter, holds only filtered tools, and is ready only under a valid name |
| ListingManager.SurfaceableIffHarmless | agere-mcp/src/connection_manager.rs:321-381 | everything shown in every state of every run may be called and has a permitted connector exactly when that holds of what the apps server would show of the first cache file |
| ListingManager.RefreshShowsFetched | agere-mcp/src/connection_manager.rs:337-381 | after a completed refresh the apps server shows exactly the refreshed tools that may be shown, in order |
| ListingManager.RefreshLeavesOthers | agere-mcp/src/connection_manager.rs:337-381 | no refresh, whatever comes of it, changes what any other server shows |
| ListingObjects.GatherTools | agere-mcp/src/connection_manager.rs:321-329 | the loop over the clients concatenates their lists and skips those that have none |
| ListingManager.EveryListingIsSurfaceable | agere-mcp/src/connection_manager.rs:321-331 | with a harmless first cache file every entry of the combined map names a configured server whose `call_tool` filter allows it, and its connector is absent or allowed, at whatever moment of the run each server's list was read |
| ListingOrder.ListAllForgetsOrder | agere-mcp/src/connection_manager.rs:321-331 | the combined map of a state is the same in whatever order the clients are walked when no two servers keep different tools with one raw identity |
| ListingOrder.KeptForgetsOrderIff | agere-mcp/src/connection_manager.rs:321-331 | deduplication keeps the same tools in every walking order exactly when no two servers keep different tools with one identity |
| ListingOrder.KeptIsUnion | agere-mcp/src/tools.rs:142-167 | then what is kept of all lists together is what is kept of each |
| ListingOrder.OwnFileForgetsOrder | agere-mcp/src/connection_manager.rs:321-331 | from a first cache file of the apps server's own every listing of every run forgets the order, whenever each list was read |
| ListingOrder.CacheShadowsTool | agere-mcp/src/connection_manager.rs:321-331 | a harmless foreign cache file with which the combined map depends on the order, for every digest and tool |
| Listing.FinishesOwn | agere-mcp/src/rmcp_client.rs:442-451 | a started server's tools name that server |
| Listing.CacheFollowsWrites | agere-mcp/src/agere_apps.rs:193-232 | over any sequence of writes a reader sees the last completed list, or nothing after a torn one |
| Listing.CacheIsTransparent | agere-mcp/src/rmcp_client.rs:96-120 | a ready apps server lists exactly what filtering the last written list directly gives |
| Listing.StartupHitIsFetched | agere-mcp/src/rmcp_client.rs:503-541 | after startup with a completed write the cache hit, the fetched list filtered and the startup list are the same |
| Listing.ShownIffCallable | agere-mcp/src/connection_manager.rs:520-532 | a started server shows a tool of some name exactly when the list in force offers one and a call to it is let through |
| Listing.OldCacheHidesTool | agere-mcp/src/rmcp_client.rs:96-120 | after a skipped write an older cache file hides a fetched tool that may be called |
| ListingManager.ResolvesToOne | agere-mcp/src/connection_manager.rs:616-621 | no two entries share namespace and name, so the search over an unordered map has one answer |
| Elicitation.ResolveFindsLatest | agere-mcp/src/elicitation.rs:52-65 | a resolve finds a responder exactly when the last step on its key was a registration, and finds that one |
| Elicitation.SecondResolveFails | agere-mcp/src/elicitation.rs:52-65 | a second resolve without a registration in between reports not found |
| Elicitation.RequestersTracked | agere-mcp/src/elicitation.rs:137-161 | in every interleaving the map holds a waiting requester's responder, and only those of requesters that wait or gave up |
| Elicitation.RegisteredOnce | agere-mcp/src/elicitation.rs:137-141 | a requester exists exactly when it registered, under that key and once |
| Elicitation.PublishedAfterRegistered | agere-mcp/src/elicitation.rs:137-159 | a prompt is published only after its responder was registered |
| Elicitation.ResponderUsedOnce | agere-mcp/src/elicitation.rs:52-65 | no responder is taken by two resolves |
| Elicitation.AnsweredByResolve | agere-mcp/src/elicitation.rs:52-65 | an answered requester got the response of the one resolve that took its responder |
| Elicitation.ResolveAnswers | agere-mcp/src/elicitation.rs:52-65 | a resolve answers the requester that waits under its key with its response, for good |
| Elicitation.DeliveredIffWaiting | agere-mcp/src/elicitation.rs:52-65 | a resolve reports delivery exactly when someone waits under the key, and not found exactly when nothing is held there |
| Elicitation.ClosedByReplacement | agere-mcp/src/elicitation.rs:137-161 | a requester's channel closes only because another registered under the same key |
| Elicitation.ReplacementCloses | agere-mcp/src/elicitation.rs:137-161 | and a registration closes the channel of whoever waits under its key, for good |
| Elicitation.AskedUnlessRejected | agere-mcp/src/elicitation.rs:90-107 | the user is asked exactly when the policy does not reject; auto-accept needs policy Never, full access and an empty form |
| Elicitation.ElicitationManager.AddResponder | agere-mcp/src/elicitation.rs:137-141 | registering replaces and closes an earlier responder under the key |
| Elicitation.ElicitationManager.ResolveRequest | agere-mcp/src/elicitation.rs:52-65 | the responder is removed first, then found missing, gone or answered |
| Elicitation.ElicitationManager.RunSteps | agere-mcp/src/elicitation.rs:52-162 | the object's methods, in any interleaving, reach the state the theorems are about |
| Der.DerItemLength | agere-client/src/custom_ca.rs:656-680 | the checked-arithmetic loop equals the unbounded reading; an overflow exit never rejects an item that fits |
| Der.FirstItemOfEncoded | agere-client/src/custom_ca.rs:628-680 | any item with a one-octet tag and any definite length, followed by anything, is cut off exactly |
| Der.FoundIsEncoded | agere-client/src/custom_ca.rs:628-680 | whatever is found is such an item |
| Der.DependsOnPrefix | agere-client/src/custom_ca.rs:628-630 | the answer depends on the item alone |
| Der.NoShorterPrefix | agere-client/src/custom_ca.rs:628-630 | no proper prefix of an item is accepted |
| Der.TrimIsIdempotent | agere-client/src/custom_ca.rs:628-630 | trimming a trimmed item changes nothing |
| Der.StandardUnlessReserved | agere-client/src/custom_ca.rs:656-680 | the code and the definite forms of section 8.1.3 of ITU-T X.690 agree exactly on inputs without the reserved length octet |
| Der.ReservedIsAccepted | agere-client/src/custom_ca.rs:656-680 | an input with the reserved octet that the code accepts |
| Der.ParseCertificates | agere-client/src/custom_ca.rs:442-490 | certificates in order, other sections ignored, the first breaking section decides the error, and an empty bundle is an error |
| Der.MixedBundle | agere-client/src/custom_ca.rs:608-613 | in a trusted bundle items with and without trailing trust data come out unchanged and in order, whatever other sections stand between them |
| Der.UntrustedUnchanged | agere-client/src/custom_ca.rs:442-490 | a bundle without trusted certificates fails only on malformed PEM, and its certificates come out unchanged and in order |
| Retry.RunWithRetry | agere-client/src/retry.rs:49-73 | returns the first attempt that is not retryable or the last allowed one, makes at most max_attempts + 1 calls, sleeps the specified delays between them, panics only with overflow checks at a multiple of 2^32, and never reaches the limit error |
| Retry.SwitchesAreIndependent | agere-client/src/retry.rs:22-36 | each switch turns off exactly its own class of errors, and with all on only 429, 5xx, timeout and network errors are retried |
| Retry.OverflowsIff | agere-client/src/retry.rs:38-47 | there is no delay exactly with overflow checks on the positive multiples of 2^32 |
| Retry.WrappedDelay | agere-client/src/retry.rs:38-47 | without overflow checks the delay there is the largest one for every positive base, and before attempt 0 it would be the base itself |
| Retry.MillisIs | agere-client/src/retry.rs:38-47 | the base loses whole multiples of 2^64 milliseconds and nothing else |
| Retry.RawDelayIs | agere-client/src/retry.rs:38-47 | the raw delay is the base doubled once per retry after the first, cut off at the largest `u64` |
| Retry.TotalSleep | agere-client/src/retry.rs:38-73 | n retries sleep less than 1.1 times base times (2^n - 1) ms |
| Retry.DelayWindow | agere-client/src/retry.rs:38-47 | until saturation each delay is within a tenth of the base doubled once per retry, rounded down |
| Retry.DelayWindowOfBase | agere-client/src/retry.rs:38-47 | the same window in terms of the base itself, for every product that fits 64 bits |
| Retry.ShorterIff | agere-client/src/retry.rs:38-47 | which raw delays no pair of jitters can bring out of order |
| Retry.DelaysDoNotShrink | agere-client/src/retry.rs:38-47 | a later retry waits less than an earlier one in some run exactly when its raw delay is saturated and the earlier one's is above nine elevenths of the largest `u64` |
| Retry.SaturatedMayShrink | agere-client/src/retry.rs:38-47 | the largest base delay allows it from the first retry to the second |
| Derive.SnakeToCamel | agere-experimental-api-macros/src/lib.rs:226-242 | the character loop computes the serialised name |
| Derive.CamelKeepsLetters | agere-experimental-api-macros/src/lib.rs:226-242 | only underscores and letter case change |
| Derive.CamelOfWords | agere-experimental-api-macros/src/lib.rs:226-242 | what follows an underscore gets a capital, and the rest goes on as before |
| Derive.WordStays | agere-experimental-api-macros/src/lib.rs:226-242 | a word without underscores stays as it is |
| Derive.DeriveForStruct | agere-experimental-api-macros/src/lib.rs:30-158 | the generator's loop emits one check per gated or nested field and one registry entry per gated field, in order |
| Derive.PresenceAgrees | agere-experimental-api-macros/src/lib.rs:260-274 | the generated test means that the value is there exactly when the type is written with a built-in name or the value is there anyway |
| Derive.AliasCountsAsPresent | agere-experimental-api-macros/src/lib.rs:260-274 | a program in which an empty option behind an alias passes the generated test |
| Derive.FirstDeclaredUse | agere-experimental-api-macros/src/lib.rs:30-158 | the generated code returns the reason of the first declared field in use, or None when there is none, exactly when no empty gated field behind another name comes first with a different reason |
| Derive.RunFindsFirst | agere-experimental-api-macros/src/lib.rs:30-158 | the generated statements return what the first field whose statement returns gives, for every struct value |
| Derive.MeaningIsFirst | agere-experimental-api-macros/src/lib.rs:30-158 | the meaning is that of the first field in use, and None exactly when no field is |
| Derive.FindsFirstItem | app-server-protocol/src/experimental_api.rs:40-56 | vectors and maps report their first value that has a reason |
| Derive.ReasonIsLeftmost | app-server-protocol/src/experimental_api.rs:34-56 | for every well-typed value the reason is the one at the leftmost place reached through options, vectors, maps and nested fields that is a gated field in use or a variant with a reason, and None exactly when there is no such place |
| Derive.ReasonOfIs | agere-experimental-api-macros/src/lib.rs:195-205 | the reason of a declaration is the first literal one among its attributes |
| Derive.ReasonIsRegistered | agere-experimental-api-macros/src/lib.rs:30-158 | a struct's reason sits at the end of a path of nested fields, and the type there says whether it is registered or on an enum variant |
| Derive.ReasonIsDeclared | agere-experimental-api-macros/src/lib.rs:30-193 | for every value of every type, with enums, aliases, options, vectors and maps on the way |
| Derive.RegistersIff | agere-experimental-api-macros/src/lib.rs:30-158 | a reason is registered under a name exactly when a struct of that name gates a field with it; no enum registers any |
| Derive.EnumReasonUnregistered | agere-experimental-api-macros/src/lib.rs:160-193 | a program whose only reason sits on an enum variant registers nothing |
| Dedupe.AnalyticsEventsQueue.ShouldEnqueueAppUsed | analytics/src/client.rs:81-97 | an app without a connector passes and is not remembered; otherwise a full set is emptied, then the key is looked up and added |
| Dedupe.AnalyticsEventsQueue.ShouldEnqueuePluginUsed | analytics/src/client.rs:99-112 | the same for plugins, in a set of their own |
| Dedupe.NeverOverfull | analytics/src/client.rs:81-112 | never more than 4096 keys |
| Dedupe.Remembers | analytics/src/client.rs:81-112 | the set holds exactly the keys that came since it was last emptied |
| Dedupe.NextClear | analytics/src/client.rs:81-112 | the next clear is the first call to find 4096 different keys since the last one |
| Dedupe.AcceptedIffNewSinceClear | analytics/src/client.rs:81-112 | a call is accepted exactly when its key has not come since the last clear |
| Dedupe.AgreesWithSeenSet | analytics/src/client.rs:81-112 | a call departs from an unbounded seen-set exactly when its key came before the last clear and not since |
| Dedupe.AgreesBelowLimit | analytics/src/client.rs:81-112 | a run with fewer than 4096 distinct keys agrees call by call |
| Dedupe.FullSetAcceptsRepeats | analytics/src/client.rs:81-112 | every call that clears accepts its key, and so departs exactly when the key was seen before |
| Dedupe.RepeatIsAccepted | analytics/src/client.rs:81-112 | 4096 different keys and the first of them again: the last call clears and accepts a key it had seen |
| Dedupe.AcceptedTwiceAcrossClear | analytics/src/client.rs:81-112 | a key is accepted twice only across a clear |
| Dedupe.ClearsEvery4096 | analytics/src/client.rs:81-112 | exactly 4096 events pass between one clear and the next |

## Left out

- Websocket, HTTP, TLS, process launch, file paths and the environment: their outcomes are parameters of the models.
- SHA-1, JSON decoding, PEM sectioning, connector permission and callable-name normalisation: parameters, with no more known than a digest's length and alphabet.
- Error texts, log lines and metrics: only error kinds are modelled. In particular a failed server's status event carries the same error as the summary here, where the code formats the former for display.
- Timeouts: a handshake or startup that times out is one of the failures an input sequence may contain.
- Payloads of analytics events beyond the fields listed in `Reducer.Event`, and the skill, hook and plugin name mappings.
- Resource listing and its pagination: the loops stop only on an immediately repeated cursor, so they promise no termination.
- How input schemas are masked: the masked schema is a parameter, that it replaces the raw one of apps tools is modelled.
- Multi-octet tags in DER: the code reads one tag octet, and so does the model.
- Rounding of 64-bit floats in the jittered delay: the product is taken over real numbers, then rounded down and cut off at the largest `u64`.
- `shutdown` aborts a worker that does not finish in time (app-server-client/src/remote.rs:628-630): such a worker ends without the drain, and its open requests see their channels close.
- Several processes sharing one cache file: the file changes only through the modelled writes.
- The manager's task spawning: `Startup` lets servers be announced in any order and at any time, which includes the sequential loop of the code.
- UTF-8 boundaries in `truncate_name`: every name that reaches it is already ASCII.
