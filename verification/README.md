# Friendzone: a Dafny model of the broker's hard parts

Friendzone is a network broker that lets guests act on GitHub and MCP servers under the host's control. This
project models the parts whose correctness is hard to see from the code, and proves what they are for:

- **The GraphQL front end** (`src/graphql.rs`): lexer, parser and printer as loops proved against recursive
  specifications, the print/read round trip, fragment validation, the worklist directive check against full inlining,
  the expander with its exact budget against a preorder listing, value compaction, and the comment command that the
  broker rebuilds.
- **Durable GraphQL jobs** (`src/jobs.rs`): a machine of requests, worker steps, failed writes, crashes at any point
  and restarts, with every run quantified over.
- **Git publications** (`src/pushes.rs`): the same, with artifact directories and a remote branch that other writers
  change too.
- **OAuth sessions** (`src/mcp_oauth.rs`, `publish` in `src/mcp.rs`): every interleaving of logins, refreshes,
  disconnects and registry publications, one step between two waits.
- **The review queue and fingerprints** (`src/review.rs`), and **CIDR tests** (`src/infrastructure.rs`).

`dafny verify dfyconfig.toml` checks the whole project.

## How to read it

| files | contents |
|---|---|
| `Lexer`, `BlockStrings`, `Syntax`, `Parser`, `ParserLoops`, `Printer` | tokens and documents; the `Scan…` and `Cursor` methods are the source's loops, proved against the functions |
| `PrintedText`, `PrintedTokens`, `ParsedDocument`, `RoundTrip` | printed text lexes to the document's tokens, those parse to the document, parsed documents are well formed and have a known token count |
| `Fragments`, `Inlining`, `Requests`, `Inspection` | validation, the meaning of fragments by inlining, the worklist check, and whether a request is a read |
| `Compaction`, `Listings`, `Budget`, `Expander`, `Analysis` | large values, the preorder listing, what expanding it costs, the expander object, the analysis |
| `CommentPlan`, `CommentMeaning`, `CommentReview`, `CommentLimit` | the comment command, what it means, reviewing the rebuilt request, and a request at the limit |
| `Runs`, `ResultText`, `Statuses`, `Pruning`, `JobStore`, `JobRuns`, `JobSafety`, `JobOverflow`, `JobFingerprints`, `JobBroker` | jobs: sizes, pruning, the machine, its theorems, a run that loses an outcome, what a decision commits to, the service object and its worker |
| `PushStore`, `PushFormat`, `PushRuns`, `PushInvariant`, `PushSafety`, `PushLife`, `PushFingerprints`, `PushBroker` | publications, likewise |
| `OauthSessions`, `OauthSafety`, `OauthRegistry`, `OauthBroker` | sessions, theorems, retired owners, session and registry objects |
| `ReviewQueue`, `ReviewBroker`, `Fingerprints`, `Infrastructure` | the queue, its object, the hashed encoding, addresses |

A *run* is a list of events, and a state machine's `Run` gives the state after it. An event carries what the model does
not decide: the clock, the answers of the network, whether a write fails, succeeds, or is the process's last act.
Because every prefix of a run is a run, a statement about every run is a statement about every crash point.

## Where the code does less than its design says

- **Reprinting** (`RoundTrip.ReadPrintRead`): a query that fills the 8192-token limit and uses the shorthand `{ … }` form
  is accepted, but its printed form is not, since the word `query` is one token more. The exact condition is proved, and
  `RoundTrip.FullShorthandIsNotReprintable` names such a query.
- **Reviewing the rebuilt comment again** (`CommentReview.ReviewedAgainIff`): for every request whose comment command is
  exposed, the rebuilt request is planned to the same plan (`CommentReview.Replan`; the token limit never bites, since a
  reviewed operation has at most 256 fields). But the rebuilt request passes its input as a variable, which costs the
  analysis a known number of bytes more. It is reviewed again exactly when those fit the 256 KiB budget;
  `CommentLimit.FullRequestIsNotReviewedAgain` names a request for which they do not, in any display in which the two
  fields grow by three bytes with each letter of an alias; `CommentLimit.JsonShowsAlias` shows that they do as JSON.
- **Recording an outcome** (`JobSafety.OutcomeRecordedIff`): the reservation leaves 4096 bytes for the rest of the record,
  while retained response headers alone may hold 8192. An outcome is recorded exactly when its record grows by at most
  the reservation and the room that is left; `JobOverflow.OutcomeIsLost` is a run of thirteen submissions, each within
  the payload limit, after which the outcome of a request that was sent is not recorded.
- **Restarting after an early expiry** (`PushSafety.ReloadIff`, `PushSafety.StuckForever`): a publication that expires
  while still being prepared has no review, and the integrity check at start-up refuses it. The saved store is accepted
  exactly when there is no such record; a seven-event run reaches one, and after it the broker never starts again.
- **Half a publication of forwards** (`OauthRegistry.AllLiveIff`, `OauthRegistry.HalfPublished`): when the removal of one
  credential fails, the sessions retired before it stay registered. Such a name can neither log in nor disconnect, and
  publishing its configuration again keeps it so. While nothing is being published, every registered session is live
  exactly when no publication failed after retiring one that has been kept since.
- **The limit of 32 active jobs** is never reached: the reservation admits at most ten (`JobSafety.RoomIsReserved`).

## Model

| member | source | states |
|---|---|---|
| `Lexer.LexLoop` | src/graphql.rs:122-217 | the token loop returns exactly the tokens, or the error, of the recursive lexer |
| `Lexer.LexIsLimitedTokens` | src/graphql.rs:205-217 | the lexer is the unlimited lexer cut off at 8192 tokens |
| `Lexer.ScanToken` | src/graphql.rs:145-213 | one token from a position agrees with the token function, and so does the position after it |
| `Lexer.ScanNumber` | src/graphql.rs:155-197 | number scanning stops where the number grammar does, or fails with its error |
| `Lexer.ScanQuoted` | src/graphql.rs:221-272 | the quoted-string loop decodes every escape like the specification |
| `Lexer.ScanBlock` | src/graphql.rs:221-236 | the block-string loop reads up to the closing quotes, with escaped quotes kept |
| `BlockStrings.NormalizedLines` | src/graphql.rs:323-358 | a normalized block string splits back into its kept lines, and neither the first nor the last is blank |
| `BlockStrings.DedentKeepsLines` | src/graphql.rs:334-346 | dedenting removes from each line only its own indentation, up to the common one |
| `ParserLoops.Cursor.WholeDocument` | src/graphql.rs:459-537 | the document loop over a moving position agrees with the parse function, errors included |
| `ParserLoops.Cursor.Value` | src/graphql.rs:611-656 | values, with constants and the depth limit, agree with the parse function |
| `ParserLoops.Cursor.Entries` | src/graphql.rs:584-600 | arguments and object fields agree with the parse function, duplicates rejected |
| `ParserLoops.Cursor.Directives` | src/graphql.rs:601-610 | directives agree with the parse function |
| `ParserLoops.Cursor.Selections` | src/graphql.rs:658-715 | selection sets agree with the parse function, empty and too deep ones rejected |
| `ParserLoops.Cursor.Variables` | src/graphql.rs:539-569 | variable definitions agree with the parse function, duplicates rejected |
| `ParserLoops.Cursor.Type` | src/graphql.rs:570-583 | type references agree with the parse function |
| `ParsedDocument.SoundDefinitions` | src/graphql.rs:459-537 | whatever is parsed is well formed, and its token count is that of the input plus one per shorthand operation |
| `PrintedText.LexDocument` | src/graphql.rs:734-831 | the printed text of every well-formed document lexes to the document's tokens |
| `PrintedText.ReadEscaped` | src/graphql.rs:36-55 | every string, escaped by the printer, is read back unchanged |
| `PrintedTokens.ParseDocumentTokens` | src/graphql.rs:459-716 | the tokens of every well-formed document parse to that document |
| `RoundTrip.PrintThenRead` | src/graphql.rs:122-217 | a well-formed document is read back from its text exactly when its tokens fit the limit |
| `RoundTrip.ReadPrintRead` | src/graphql.rs:782-831 | for every accepted text, printing and reading again gives the same document if and only if a token of room is left or no shorthand was used |
| `RoundTrip.ShorthandStandsAlone` | src/graphql.rs:459-537 | an accepted document has at most one shorthand operation |
| `RoundTrip.FullShorthandIsNotReprintable` | src/graphql.rs:205-217 | an accepted query whose printed form is rejected |
| `Fragments.ValidateFragments` | src/graphql.rs:1641-1701 | in any visiting order: acceptance gives all spreads defined and a topological completion order, a reported cycle or undefined name exists |
| `Fragments.Visit` | src/graphql.rs:1675-1699 | one visit extends the completion order, or comes back with evidence for its error |
| `Fragments.TopologicalIsAcyclic` | src/graphql.rs:1641-1701 | a completion order excludes every cycle |
| `Fragments.PathDescends` | src/graphql.rs:1675-1699 | every path of spreads goes strictly down the completion order, so inlining ends |
| `Inlining.InlineAllSame` | src/graphql.rs:1675-1699 | inlining does not depend on which completion order was found |
| `Inlining.QueryDirectivesSupported` | src/graphql.rs:1500-1551 | the worklist that visits each fragment once says yes exactly when every directive of the fully inlined operation is supported |
| `Inspection.InspectRequest` | src/graphql.rs:1397-1494 | a request classified as a read selects an operation of kind query whose inlined form has only supported directives; one that is missed has a chain of 34 fragments |
| `Inspection.AnyOrder` | src/graphql.rs:1424-1494 | being a read does not depend on the completion order that was found |
| `Compaction.Compact` | src/graphql.rs:1713-1732 | compaction replaces exactly the large strings and files each under its digest |
| `Compaction.CompactFields` | src/graphql.rs:1723-1732 | the same for object fields and variables, in place of each value |
| `Compaction.RestoreCompacted` | src/graphql.rs:1713-1732 | putting filed strings back gives the original value |
| `Compaction.SubstituteCompacted` | src/graphql.rs:1743-1780 | substituting compacted variables and compacting is compacting the plain substitution |
| `Compaction.SubstituteIsPlain` | src/graphql.rs:70-91 | substitution leaves no variable and no display reference |
| `Expander.Expansion.Resolve` | src/graphql.rs:1743-1780 | succeeds exactly when depth, variables and byte budget allow; a resolved value is the compacted plain substitution, its large strings are filed, and exactly its charge is spent |
| `Expander.Expansion.Arguments` | src/graphql.rs:1781-1788 | succeeds exactly when the charge can be paid; resolved arguments are the compacted plain substitution of the original variables |
| `Expander.Expansion.Conditions` | src/graphql.rs:1789-1805 | succeeds exactly when the charge can be paid; conditions are the parent's followed by the substituted directives |
| `Expander.Expansion.Expand` | src/graphql.rs:1806-1911 | succeeds exactly when the depth, selections, fields and bytes of the inlined selections fit what is left, and then appends exactly the display form of their preorder listing |
| `Budget.AfterFirst` | src/graphql.rs:1806-1827 | what is left after several selections is what is left after the first and then the others |
| `Budget.FieldThenSelections` | src/graphql.rs:1820-1882 | the declarative cost of a field is its own charge and view, and then its selections one level down, with the first failing limit deciding |
| `Budget.GroupThenSelections` | src/graphql.rs:1883-1908 | the same for fragments, which show nothing of their own |
| `Listings.ListingNests` | src/graphql.rs:1820-1882 | in the listing each parent comes earlier, each path extends the parent's by the response name, conditions extend the parent's |
| `Listings.ListingDropsNothing` | src/graphql.rs:1806-1911 | the listing has one entry for each field of the inlined operation |
| `Analysis.ExpandOperation` | src/graphql.rs:1603-1640 | succeeds exactly when the operation is reviewable; restoring the displayed fields gives the reference listing under the original variables, free of references |
| `Analysis.ReviewableIsAfter` | src/graphql.rs:1603-1640 | an operation is reviewable (at most 256 fields, 1024 selections, 32 levels and 256 KiB in all, and every variable known) exactly when step-by-step accounting never runs out |
| `Analysis.OccurrencesNest` | src/graphql.rs:1806-1911 | the reference listing drops nothing and nests by parent, path and conditions |
| `Analysis.OccurrencesArePlain` | src/graphql.rs:1603-1612 | no variable reference remains in the reference listing |
| `Analysis.ParsedValueIsClean` | src/graphql.rs:611-656 | parsed values hold no display reference, and constants no variable |
| `CommentMeaning.SameMeaning` | src/graphql.rs:952-1120 | for every planned request, the rebuilt request makes the same single addComment call: alias, input and response selection |
| `CommentMeaning.ReplanShort` | src/graphql.rs:955-965 | a rebuilt query within the token limit is read and planned to the same plan |
| `CommentReview.Replan` | src/graphql.rs:1603-1612 | for every request whose comment command is exposed, planning the rebuilt request gives the same plan |
| `CommentReview.ReviewedAgainIff` | src/graphql.rs:1603-1640 | analysing the rebuilt request exposes the same plan if and only if the bytes of the first review and the extra cost of the input fit the budget |
| `CommentReview.InputsDiffer` | src/graphql.rs:1743-1780 | the rebuilt input costs exactly the extra: nothing if the guest passed a variable; otherwise 16 bytes, less 16 for each member that was a variable, and a reference's own bytes instead of 96 for each large literal |
| `CommentReview.FewFieldsFewTokens` | src/graphql.rs:1806-1862 | a comment within the field limit has a rebuilt query within the token limit |
| `CommentMeaning.GuestCall` | src/graphql.rs:967-1120 | a planned document calls addComment with exactly the planned subject, body and client id under its variables |
| `CommentMeaning.PlannedFields` | src/graphql.rs:1015-1062 | an input object that is planned substitutes to the planned values |
| `CommentMeaning.RebuiltParses` | src/graphql.rs:955-965 | the rebuilt query text lexes and parses to the broker's own mutation, with a known token count |
| `CommentMeaning.ReplanDocument` | src/graphql.rs:967-1120 | the rebuilt document and variables are planned to the same plan |
| `CommentMeaning.EffectiveVariablesArePlain` | src/graphql.rs:70-91 | supplied, default and missing variables hold no reference, and objects among them are ordered maps |
| `CommentLimit.FullRequestIsNotReviewedAgain` | src/graphql.rs:1743-1752 | in any display that grows by three bytes with each letter of the alias, a request that is reviewed and planned, while the rebuilt request is over the byte budget |
| `CommentLimit.JsonShowsAlias` | src/graphql.rs:1853-1876 | the two displayed fields, as JSON objects with their response name and path, grow like that |
| `CommentLimit.FullRequestInJson` | src/graphql.rs:1853-1876 | such a request for every JSON display whose other members take at most 199 000 bytes for the two fields |
| `ResultText.ReadResponse` | src/jobs.rs:1720-1742 | a reply is complete exactly when no chunk fails and all of it fits 4 MiB |
| `ResultText.LossyCost` | src/jobs.rs:1801 | lossy decoding and JSON escaping cost at most six bytes per byte received |
| `ResultText.LossyKeepsText` | src/jobs.rs:1801 | valid UTF-8 comes back unchanged |
| `Pruning.PruningFailsIff` | src/jobs.rs:1233-1250 | pruning fails exactly when even removing everything removable leaves too much |
| `Pruning.OldestRemovable` | src/jobs.rs:1239-1247 | the candidate is a removable slot that none precedes in (update time, id) order |
| `JobStore.StorageUsage` | src/jobs.rs:1216-1228 | the loop computes serialized bytes plus the reservation of every active job |
| `JobStore.PruneForAdmission` | src/jobs.rs:1233-1250 | the loop removes exactly the shortest prefix of removable jobs that brings the store within its limits, or reports that none does |
| `JobStore.JobsDoNotFitIff` | src/jobs.rs:1328-1348 | admission finds no room exactly when removing every removable job would not make room |
| `JobStore.PrunedJobsKeep` | src/jobs.rs:1121-1126 | active, unknown and recent unacknowledged jobs are never removed |
| `JobStore.UsageReplace` | src/jobs.rs:1195-1214 | replacing a job changes the usage by that job's growth and reservation alone |
| `JobStore.FewActive` | src/jobs.rs:1195-1214 | at most ten jobs are active in a committed store |
| `JobRuns.StepKeeps` | src/jobs.rs:1195-1214 | every step keeps the invariant, failed and fatal writes included |
| `JobRuns.RunKeeps` | src/jobs.rs:1153-1214 | the invariant holds in every run with crashes, restarts and failed writes |
| `JobSafety.SentAtMostOnce` | src/jobs.rs:1586-1665 | over every run no job is sent twice |
| `JobSafety.SendIsDurable` | src/jobs.rs:1620-1665 | whatever is sent is a submitted body, unchanged, whose durable record already says Sending |
| `JobSafety.SendWasAllowed` | src/jobs.rs:1296-1305 | every send was allowed in the same run: by allow-all, by a timely decision with exactly its fingerprint, or because the body sent is that of a query that is a read |
| `JobFingerprints.SentAsDecided` | src/jobs.rs:1294-1305 | if a send was allowed by a decision, every request with the fingerprint decided on equals the one that is sent, in method, URL, headers and body |
| `JobFingerprints.SubmissionHasEvent` | src/jobs.rs:1251-1330 | every submission on record came with an accepted request |
| `JobSafety.GrantHasEvent` | src/jobs.rs:1521-1551 | every permission on record was given by such a request |
| `JobSafety.StepLivesOn` | src/jobs.rs:1445-1461 | each step keeps a job's work and moves it along the life cycle; Sending ends only by its own reply or a restart; only finished jobs are removed |
| `JobSafety.FinishedForever` | src/jobs.rs:1400-1461 | a finished or removed job is never active again, in any continuation |
| `JobSafety.SubmittedForever` | src/jobs.rs:1296-1330 | what was submitted never changes |
| `JobSafety.StoredAsSubmitted` | src/jobs.rs:1296-1330 | every stored job has the owner, body and fingerprint that were submitted |
| `JobSafety.RoomIsReserved` | src/jobs.rs:1195-1214 | every committed store leaves 6 × 4 MiB + 4096 bytes for each active job |
| `JobSafety.OutcomeFits` | src/jobs.rs:1807-1817 | an outcome that adds at most 4096 bytes besides the result always fits |
| `JobSafety.OutcomeRecordedIff` | src/jobs.rs:1807-1817 | in every run, for every reply: the outcome is on disk after a successful write if and only if its record grows by at most the reservation and the room left; otherwise the store stays as it was |
| `JobOverflow.OutcomeIsLost` | src/jobs.rs:1195-1214 | after a concrete run of submissions within the payload limit, the longest reply is recorded exactly when the rest of the record grows by at most 4098 bytes |
| `JobSafety.RestartSucceeds` | src/jobs.rs:1153-1193 | a restart accepts every saved store, forgets no job, sends nothing, and maps Sending to Unknown and queued to Cancelled |
| `JobBroker.Jobs.Transaction` | src/jobs.rs:1195-1214 | memory and file change together or not at all, and only within the storage limit |
| `JobBroker.Jobs.Submit` | src/jobs.rs:1251-1348 | every refusal of a submission, and otherwise one step of the machine |
| `JobBroker.Jobs.SubmitRequest` | src/jobs.rs:1251-1348 | the query is inspected first, only a read is approved as one, and the fingerprint is the digest of the request that would send the body |
| `JobBroker.Jobs.Serve` | src/jobs.rs:1195-1214 | any list of requests is that many steps of the machine, whatever the worker holds |
| `JobBroker.Jobs.Decide` | src/jobs.rs:1521-1551 | a decision is one step of the machine, and succeeds only for a pending, unexpired job with that fingerprint |
| `JobBroker.Jobs.Cancel` | src/jobs.rs:1400-1420 | cancelling is one step of the machine |
| `JobBroker.Jobs.Acknowledge` | src/jobs.rs:1421-1444 | acknowledging is one step of the machine |
| `JobBroker.Jobs.Delete` | src/jobs.rs:1445-1461 | deleting is one step of the machine |
| `JobBroker.Jobs.Tick` | src/jobs.rs:1569-1820 | the worker's loop over copied jobs, with any requests before each job, before each send and while a reply is awaited, is a run of the machine |
| `JobBroker.TickRun` | src/jobs.rs:1569-1820 | a tick is some list of events of the machine, so the theorems about runs hold of the object |
| `PushStore.PruneForAdmission` | src/pushes.rs:474-496 | the loop removes exactly the shortest prefix of removable publications that makes room, and names it |
| `PushStore.PushesDoNotFitIff` | src/pushes.rs:572-589 | admission finds no room exactly when removing every removable publication would not make room |
| `PushStore.PrunedPushesKeep` | src/pushes.rs:151-156 | active, unknown and recent unacknowledged publications are never removed |
| `PushInvariant.StepKeeps` | src/pushes.rs:433-450 | every step of broker, server and other writers keeps the invariant |
| `PushInvariant.RunKeeps` | src/pushes.rs:262-450 | the invariant holds in every run |
| `PushSafety.OneChange` | src/pushes.rs:1276-1353 | over every run a publication changes its branch at most once, only from the submitted object to the reviewed head |
| `PushSafety.BranchMoves` | src/pushes.rs:1302-1326 | every change of a branch is another writer's or such a logged compare-and-swap |
| `PushSafety.StartsAreLogged` | src/pushes.rs:922-945 | each start of a push enters the history and the server's queue, and no other step adds to them |
| `PushSafety.PushIsDurable` | src/pushes.rs:922-945 | whenever a push starts it was never started before, and its durable record says Sending, with the review that is pushed, allowed in this run |
| `PushSafety.ReceivedWasSeen` | src/pushes.rs:1328-1342 | a publication is reported as received only if its branch was read at the reviewed head |
| `PushSafety.BundlesSurvive` | src/pushes.rs:543-606 | in every reachable state each saved publication has its bundle |
| `PushSafety.ReloadIff` | src/pushes.rs:339-397 | a restart accepts the saved store exactly when no publication expired before it had a review |
| `PushSafety.StuckForever` | src/pushes.rs:798-815 | a concrete run after which the broker never starts again |
| `PushLife.PushWasAllowed` | src/pushes.rs:737-761 | whenever a push starts, it is its first start, and it was allowed in the same run by allow-all or a timely decision with exactly its fingerprint |
| `PushFingerprints.PushedAsDecided` | src/pushes.rs:737-761 | if a push was allowed by a decision, every request with the fingerprint decided on equals, in all seven fields, the one whose branch, expected object and bundle are pushed |
| `PushFingerprints.SameFields` | src/pushes.rs:1126-1141 | well-formed submissions have the same fields exactly when branch, base, expected object, bundle and credential agree |
| `PushFormat.OwnerAndName` | src/pushes.rs:1033-1049 | an accepted repository is an owner and a name without slashes |
| `PushFormat.PartsJoin` | src/pushes.rs:1033-1072 | the checked parts are what the slashes separate |
| `PushLife.StepLivesOn` | src/pushes.rs:776-974 | each step keeps request and review and moves along the life cycle; only finished publications are removed |
| `PushLife.FinishedForever` | src/pushes.rs:676-735 | a finished or removed publication is never active again |
| `PushBroker.Pushes.Submit` | src/pushes.rs:509-608 | every refusal, format checks included, before anything is touched, or the machine's steps: directory and bundle, then the record, then the directories no longer needed; every record keeps its bundle |
| `PushBroker.Pushes.SubmitBundle` | src/pushes.rs:509-608 | the same with the fingerprint that is the digest of the submission's seven fields |
| `PushBroker.Pushes.Delete` | src/pushes.rs:710-735 | the machine's steps: the record goes first, then its directory |
| `PushBroker.Pushes.Decide` | src/pushes.rs:737-761 | one step of the machine; it needs a pending, unexpired publication with that fingerprint |
| `PushBroker.Pushes.RemoveOrphans` | src/pushes.rs:452-472 | the machine's removals after a restart; only records, and directories that could not be removed, are left |
| `PushBroker.Pushes.Serve` | src/pushes.rs:433-450 | any list of requests, effects on the server and writes of others is that many steps of the machine, whatever the worker holds |
| `PushBroker.Pushes.Execute` | src/pushes.rs:1276-1353 | recheck, push and read-back with anything in between are the machine's steps, and nothing is pushed to a branch that has changed |
| `PushBroker.Pushes.Tick` | src/pushes.rs:776-974 | the worker's loop over copied publications, with requests, the server and other writers before each of its steps, is a run of the machine |
| `PushBroker.TickRun` | src/pushes.rs:776-974 | a tick is some list of events of the machine, so the theorems about runs hold of the object |
| `OauthSessions.StepKeeps` | src/mcp_oauth.rs:119-206 | every step of every operation keeps the invariant |
| `OauthSessions.OneOwner` | src/mcp.rs:377-416 | two live sessions of one name are the same session |
| `OauthSafety.NoResurrection` | src/mcp_oauth.rs:149-164 | credentials stored after a successful disconnect or retirement come from a login begun afterwards on a live session |
| `OauthSafety.NoOverwrite` | src/mcp_oauth.rs:135-206 | a refresh replaces exactly the record it read; a login replaces only what an earlier login stored |
| `OauthSafety.OriginBegun` | src/mcp_oauth.rs:126-148 | every stored credential goes back to a login on a session that was live when it began |
| `OauthSafety.RemovalHappened` | src/mcp_oauth.rs:149-164 | the last removal of a name was a successful disconnect or retirement, after which nothing was stored |
| `OauthSafety.OneLiveOwner` | src/mcp.rs:377-416 | in every run at most one live session owns a name, and it is the registered one |
| `OauthSafety.OnePendingPerName` | src/mcp_oauth.rs:587-612 | a name waits for at most one callback, and at most 128 wait |
| `OauthSafety.ConnectedWasStored` | src/mcp_oauth.rs:457-465 | a login is shown as connected only if its credential was stored |
| `OauthRegistry.RegisteredIsRetiredIff` | src/mcp.rs:377-416 | in every run a registered session is retired if and only if a publication retired it and none has replaced it since |
| `OauthRegistry.RetiredByFailure` | src/mcp.rs:377-416 | in every run a registered session is retired if and only if a publication failed after retiring it and all later ones kept it, or the one going on has retired it |
| `OauthRegistry.AllLiveIff` | src/mcp.rs:405-414 | between publications every registered session is live if and only if no publication failed after retiring one that is still kept |
| `OauthRegistry.StaleWhileKept` | src/mcp.rs:377-400 | a retired owner stays registered and retired while publications keep its forward |
| `OauthRegistry.HalfPublished` | src/mcp.rs:405-414 | a concrete half-way publication after which a name can neither log in nor disconnect, however often its configuration is published again |
| `OauthBroker.LiveSession.Begin` | src/mcp_oauth.rs:126-134 | the machine's step: a login begins exactly when the session is live, and afterwards only its generation is accepted |
| `OauthBroker.LiveSession.SaveLogin` | src/mcp_oauth.rs:135-148 | the machine's step at the end of a login, which counts as stored exactly when this succeeds |
| `OauthBroker.LiveSession.SaveRefresh` | src/mcp_oauth.rs:135-148 | the machine's step at the end of a refresh: the record keeps its origin, or nothing is stored |
| `OauthBroker.LiveSession.Disconnect` | src/mcp_oauth.rs:149-157 | the machine's step; the generation moves even when the removal fails, so nothing in flight is accepted afterwards |
| `OauthBroker.LiveSession.Retire` | src/mcp_oauth.rs:158-164 | the machine's step inside a publication: a session is retired only if its credential was removed |
| `OauthBroker.Registry.Publish` | src/mcp.rs:377-416 | a run of the machine: the new set is visible only after every replaced session is retired; a failure leaves the old set, and exactly the sessions handled before it are retired and without credentials |
| `ReviewQueue.RunKeeps` | src/review.rs:499-592 | in every run an id is waiting or retained at most once, and the capacity, per-guest and history bounds hold |
| `ReviewQueue.DecisionHasEvent` | src/review.rs:791-834 | whatever a waiter is told was decided in time, for its exact fingerprint, while it was waiting |
| `ReviewQueue.ToldOnce` | src/review.rs:791-834 | a waiter is told at most one decision |
| `ReviewQueue.FinalForever` | src/review.rs:728-789 | denied, expired and cancelled requests stay so in every continuation, and their waiter is told nothing more |
| `ReviewBroker.Queue.Archive` | src/review.rs:500-523 | an entry moves to the history, and the oldest items leave beyond 100 |
| `ReviewBroker.Queue.Enqueue` | src/review.rs:551-592 | a request is queued exactly when it is unknown and both limits leave room |
| `ReviewBroker.Queue.Decide` | src/review.rs:791-834 | a decision does what the machine's step says, and reaches only an open, unexpired waiter |
| `ReviewBroker.Queue.Update` | src/review.rs:728-782 | an observation changes only an item whose status allows it |
| `ReviewBroker.Queue.CancelContainer` | src/review.rs:864-881 | the machine's step on the requests found: afterwards none of the container's waits, and all others wait as before |
| `Fingerprints.Feed` | src/review.rs:318-354 | the loop feeds each field after its length |
| `Fingerprints.RoundTrip` | src/review.rs:318-327 | the fields can be read back from what is hashed |
| `Fingerprints.SameRequest` | src/review.rs:318-354 | equal review fingerprints if and only if method, URL, header list and body are equal |
| `Fingerprints.SamePush` | src/pushes.rs:1126-1141 | equal push fingerprints if and only if all seven fields are equal |
| `Fingerprints.SameRoute` | src/github.rs:177-187 | equal binding digests if and only if route and secret are equal |
| `Infrastructure.ContainsIsInterval` | src/infrastructure.rs:66-81 | shift and mask is membership in the interval of 2^(width − prefix) addresses from the network's base, for any width |
| `Infrastructure.MaskIs` | src/infrastructure.rs:71-77 | the shifted word of ones is the high bits of the prefix |
| `Infrastructure.SpellingsAgree` | src/infrastructure.rs:57-63 | an IPv4 address and its two IPv6 spellings get the same answer |
| `Infrastructure.InfrastructureV4` | src/infrastructure.rs:38-64 | exactly 169.254.0.0 to 169.254.255.255 is instance-local |
| `Infrastructure.InfrastructureV6` | src/infrastructure.rs:38-64 | exactly fe80::/10 and the metadata address are, apart from embedded IPv4 |

## Left out

- Text is a sequence of Unicode scalar values instead of UTF-8 bytes, and error messages with their positions are enumerations.
- A variable's type is kept as a tree instead of its text; the printer is written as pure functions of a tail, without its output buffer.
- JSON decoding with its duplicate-key check, and the body and content-type checks before parsing: a request starts as its query text, operation name and decoded variables.
- SHA-256 is any injective function, identifiers are fresh, and clocks, the network and randomness are inputs of events.
- Budget.FieldThenSelections: the bytes of a displayed field or condition are a parameter of the model, any function of the field and those before it.
- The display tables of the analysis (operation summaries, targets, mutation inputs, facts): flat matching.
- Job metadata other than owner, body, fingerprint, times, status and result is only its serialized size, an input of each event.
- Guest identity checks are arbitrary answers at the moment they are made; the identity service itself (`src/state.rs`) is not part of this model.
- Git subprocesses, bundle import, object checks and patch rendering; a push is the server's compare-and-swap, which may take effect late or never.
- The migration of version-one push history.
- OAuth discovery, client registration and URLs; a credential is its origin and the time it was stored, and the connection epoch is not kept.
- Review details beyond container, fingerprint, deadline and status; uploads appear only as removal and cancellation.
- Proxying, TLS, telemetry, host tables and the web interface.
