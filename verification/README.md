# Engine model

This project models the parts of the engine whose correctness is about more than one call, and proves what those parts
are for. The proofs are about the model; each doc comment names the file and lines that a definition follows. The
database, Redis and object storage appear as the contract that their callers rely on (a unique index, a keyset read, a
compare-and-set write, a get-and-delete), taken from the data access code and the schema where those are at hand.

Where the source changes state step by step, a pure step function says what each step does, a class carries the
source's own fields and methods, each method is proved to perform its step, and the lemmas are about every run of the
steps. Steps of different requests interleave freely unless a section below says otherwise. What the steps amount to is
stated a second time without them: by walks into a document, by the events of a run, slot by slot, or row by row.

| Area | Modules |
|---|---|
| Contract document script | `References`, `SchemaClosure`, `OperationIds`, `ContractDocument`, `ContractProperties`, `ContractListing`, with `Json`, `Utf8`, `SortedStrings` |
| Idempotent broadcast | `Broadcast`, `BroadcastHandler` |
| Work launched after commit | `BackgroundTasks`, `DeferredWork`, `BackgroundTasksModule` |
| Keyset pages and cursors | `Paging`, `PagingEnds`, `MovingRows`, `Base64Url`, `SessionCursor` |
| Model slots | `ModelSlots`, `SlotEffects`, `ModelPool` |
| Streamed Feishu reply and history | `PatchQueue`, `StreamingReply`, `ReplyTexts`, `History` |
| Agent grants | `Grants` |
| Versioned files | `Workspace`, `Preview` |
| Two-step OAuth sign-in | `OAuthPending` |
| Latency report | `Latency` |

Methods that perform a single UPDATE or set a single variable have no row below; the operations made of them do.

`Results` holds `Option` and `Result`, which stand for the source's `None` and its raised exceptions.

## What the proofs found

Each of these is a lemma with a concrete run or input, next to one that says when the property does hold.

- Connecting a subscription (`engine/app/services/enterprise_llm.py:192-222`) looks at no other slot, so it can put one
  model into two slots of a company or of an agent: `ModelSlots.ReconnectCanOverlap`,
  `ModelSlots.ReconnectCanOverlapAgent`; exactly when it does: `ModelSlots.ConnectKeepsInvIff`. The six operations of the
  model pool never do.
- The revision log can record a content that was not the one replaced, in three ways: the request carries no token, or
  the token that all absent files share (`engine/app/api/files.py:176-203`); the storage keeps the base class's
  conditional write, which compares and then writes (`engine/app/services/storage_runtime/base.py:236-254`); or its
  stamps come back. `Workspace.RaceLogsStale` is a run for each, and `Workspace.LogRightIffStamped` says that there is
  no fourth. And two requests that expect no file can both succeed, if a removal comes between
  them: `Workspace.CreatorsBothWin`, `Workspace.CreatorsNeedRemoval`.
- The conditional write of the storage base class compares and writes in two steps, and stamps that are hashes of the
  content come back. Either lets two writers with one token succeed: `Workspace.TwoWinners`,
  `Workspace.OneWinnerIffAtomicAndUnique`. Stamps that come back also let a preview answer with another content of equal
  size: `Preview.ReturningStampDeceives`; which ways of stamping are safe: `Preview.AnswersRightIff`.
- A restart while a drain waits can leave owned work behind: `BackgroundTasks.RestartDuringDrain`,
  `BackgroundTasks.DrainEmptiesIff`.
- A chat session that gets a message while its list is being paged can be missed: `MovingRows.MovingRowCanBeMissed`,
  `MovingRows.ReturnedUnlessOvertaken`.
- A stored chat row with role "tool" is replayed as a tool message that answers no call: `History.ToolRowStandsAlone`,
  `History.RebuiltResultsCalledIff`.
- Assembling an assembled contract again can give another registry: `ContractProperties.ReferringIdIsLost`,
  `ContractProperties.AssembleIdempotentIff`.
- The cursor decoder accepts texts that the encoder never writes, so two texts can be one cursor:
  `Base64Url.DecoderNotInjective`; exactly which texts the encoder writes: `Base64Url.CanonicalIff`.

## Model

| member | source | states |
|---|---|---|
| References.CollectReferences | engine/scripts/api_contract_document.py:19-34 | Succeeds unless some walk into the value, through objects and lists, ends at an object whose `$ref` is not a text of the supported form; and then returns exactly the schema names of the `$ref`s that walks end at. |
| SchemaClosure.ClosureIsLeast | engine/scripts/api_contract_document.py:62-71 | What the roots reach through references is the least set of names that holds the roots and is closed under references. |
| SchemaClosure.Close | engine/scripts/api_contract_document.py:62-71 | The worklist stops on every graph, cyclic ones included; it succeeds exactly when everything reachable is present and well formed, and then returns the reachable set; whatever the pop order, a failure names a reachable missing schema or a reachable bad reference. |
| SchemaClosure.ResolvableIffNothingMissing | engine/scripts/api_contract_document.py:66-71 | With well-formed references, the closure fails exactly when a reachable name is missing. |
| OperationIds.OperationIdInjective | engine/scripts/api_contract_document.py:58-61 | Method and path can be read back from an operation id, so different operations have different ids. |
| OperationIds.AssignToItem | engine/scripts/api_contract_document.py:59-61 | In one path item exactly the HTTP methods' operations get their id, and an operation that is not an object is an error. |
| OperationIds.AssignOperationIds | engine/scripts/api_contract_document.py:58-61 | The loop gives every HTTP operation of the document its id, changes nothing else, and fails exactly when a path item or an HTTP operation is not an object. |
| OperationIds.OperationIdsUnique | engine/scripts/api_contract_document.py:57-61 | In the written document the ids of two different operations are different texts. |
| ContractDocument.FirstFailureStands | engine/scripts/api_contract_document.py:46-48 | One audited operation that cannot be read fails the whole call with its own error. |
| ContractDocument.RootsHoldOperation | engine/scripts/api_contract_document.py:47-48 | The roots hold every name that an audited operation refers to. |
| ContractDocument.CollectRoots | engine/scripts/api_contract_document.py:46-48 | The loop over the audited operations returns the union of their references or the first failure. |
| ContractDocument.BindEntry | engine/scripts/api_contract_document.py:49-55 | One explicit entry adds exactly its definitions and itself, and is refused only for two different schemas under one name. |
| ContractDocument.MergeExplicit | engine/scripts/api_contract_document.py:49-56 | The merge succeeds exactly when no name is given two different schemas, and binds exactly what the source and the entries bind, whatever the order. |
| ContractDocument.MergeUnique | engine/scripts/api_contract_document.py:49-56 | At most one set of schemas is the merge. |
| ContractDocument.ConflictForbidsMerge | engine/scripts/api_contract_document.py:53-54 | Two different schemas under one name rule out every merge. |
| ContractDocument.AssembleContract | engine/scripts/api_contract_document.py:37-78 | The script returns a document exactly when one meets the declarative specification (ids, merged schemas, sorted roots and closure, everything else untouched), and returns that one. |
| ContractDocument.AssembledUnique | engine/scripts/api_contract_document.py:37-78 | The specification has at most one solution. |
| ContractProperties.DocumentClosed | engine/scripts/api_contract_document.py:62-77 | Every name that a listed schema of the returned document refers to is itself listed and present. |
| ContractProperties.AuditedReferencesResolve | engine/scripts/api_contract_document.py:46-48 | Every reference held by an audited operation of the returned document leads to a listed schema. |
| ContractProperties.SchemasPreserved | engine/scripts/api_contract_document.py:49-55 | No schema of the source is changed or lost. |
| ContractProperties.ExplicitSchemasPresent | engine/scripts/api_contract_document.py:49-56 | Each explicit entry is present without its `$defs`, and each definition under its own name. |
| ContractProperties.IdsSplitRoots | engine/scripts/api_contract_document.py:46-61 | Writing the ids takes from the audited operations' references exactly the names inside the ids it replaces. |
| ContractProperties.AssembleIdempotentIff | engine/scripts/api_contract_document.py:37-78 | Assembling a returned document again returns it unchanged if and only if every name found inside a replaced operation id is a root for another reason too. |
| ContractProperties.ReferringIdIsLost | engine/scripts/api_contract_document.py:46-61 | A document whose only reference is inside an operation id: a second run gives another registry. |
| ContractListing.RootsListed | engine/scripts/api_contract_document.py:46-56 | The roots listed in the returned document are exactly the explicit names and the names that some walk into an audited operation leads to. |
| ContractListing.SchemasListed | engine/scripts/api_contract_document.py:62-77 | The schemas listed are exactly the names that a chain of references, each inside the document's schema of the name before, leads to from a root. |
| ContractListing.SchemasGiven | engine/scripts/api_contract_document.py:49-55 | The document's schemas are exactly those that the source, an explicit entry or its `$defs` gives. |
| ContractListing.AssemblesIff | engine/scripts/api_contract_document.py:37-78 | There is a document unless a part is missing, an audited operation is missing or has a bad reference, an explicit entry or path item is no object, one name is given two schemas, or references lead from a root to a name that is not given or has a bad reference. |
| ContractListing.DocumentKept | engine/scripts/api_contract_document.py:42-78 | Outside operation ids, schemas and the registry the document is the source; each HTTP operation's id is its method, an underscore and the path in hexadecimal; the registry has version 1 and two lists in ascending order. |
| Utf8.DecodeEncode | engine/scripts/api_contract_document.py:61 | A strict UTF-8 decoder (section 3 of RFC 3629) reads back every encoded text. |
| Utf8.EncodeDecode | engine/scripts/api_contract_document.py:61 | Whatever the strict decoder accepts is the encoding of what it returns: no overlong forms, no surrogates. |
| Utf8.StandardValues | engine/scripts/api_contract_document.py:61 | The encoder gives the values of section 7 of RFC 3629, and the digits are lower case. |
| Utf8.HexUtf8Injective | engine/scripts/api_contract_document.py:61 | Different paths have different hexadecimal UTF-8 forms. |
| SortedStrings.SortedListingUnique | engine/scripts/api_contract_document.py:74-75 | A set of names has one sorted listing in code-point order. |
| SortedStrings.LessIff | engine/scripts/api_contract_document.py:74-75 | One name comes before another exactly when it is a proper prefix of it or has the lower code point where they first differ. |
| Broadcast.SendAll | engine/app/api/notification.py:350-425 | What is sent, counted per delivery: one notice for each user and agent, and, exactly if the payload asks for e-mail, one e-mail for each user with an address; under the request's key, payload and broadcast id, with counts that agree. |
| Broadcast.FanOutCounted | engine/app/api/notification.py:388-443 | The recorded counts are the numbers of deliveries of each kind really made. |
| Broadcast.StepKeepsInv | engine/app/api/notification.py:356-444 | Every step of every request keeps: one uncommitted holder per key, receipts matched one to one with keyed publications, answers that agree with receipts. |
| Broadcast.AtMostOneFanOut | engine/app/api/notification.py:364-382 | In every interleaving at most one fan-out is published under a tenant, sender and key, and its receipt is the one on record. |
| Broadcast.PublishedIsAddressed | engine/app/api/notification.py:383-444 | In every run whatever is published was sent by one request to exactly the users and agents that it found, by mail as well exactly if it asked for that. |
| Broadcast.HistoryStays | engine/app/dao/broadcast_submission_dao.py:39-79 | Committed receipts and publications are never withdrawn or altered, and an answer is final. |
| Broadcast.SameAnswer | engine/app/api/notification.py:319-328 | All successful answers under one key are the same answer, and all those requests had the same payload. |
| Broadcast.AnsweredFromReceipt | engine/app/api/notification.py:356-377 | Once a key has its receipt, a request that has not claimed it is answered from the receipt (409 for another payload) and publishes nothing. |
| Broadcast.AttemptLeavesNothing | engine/app/api/notification.py:364-382 | Until a request commits none of its steps changes a receipt or publishes anything; and one that is answered without having committed holds no key. |
| Broadcast.CommitStands | engine/app/db/session.py:54-77 | Once a request has committed its fan-out stands, even if something raised after the commit and the caller got an error; whoever asks again under the key is answered from its receipt. |
| Broadcast.RetryCanSucceed | engine/app/dao/broadcast_submission_dao.py:39-70 | While a key has neither receipt nor holder, a request that arrives can run to a published fan-out and a success. |
| BroadcastHandler.Database.BroadcastNotification | engine/app/api/notification.py:332-452 | Run without interference, the handler answers a known key from its receipt (409 for another payload); leaves everything as it was when SMTP is not configured or something raises before the commit; and otherwise publishes one addressed fan-out and records its receipt under the key. |
| BroadcastHandler.EffectIsSteps | engine/app/api/notification.py:332-452 | That effect is exactly where the interleaved steps lead when no other request moves in between. |
| BackgroundTasks.DispatchEffect | engine/app/db/session.py:31-39 | Running a batch launches or closes each of its coroutines by admission and generation at that moment, and touches no other. |
| BackgroundTasks.StepKeepsInv | engine/app/api/background_tasks.py:17-80 | Every step keeps: no coroutine waits in two places, what waits is undecided, what runs is owned, and while admission is closed, whatever is owned is in the snapshot of one waiting drain. |
| BackgroundTasks.StepFates | engine/app/api/background_tasks.py:68-78 | A launch happens only at a commit, with admission open and in the generation of the scheduling; a rollback closes. |
| BackgroundTasks.RunStep | engine/app/api/background_tasks.py:68-80 | At any place of any run, for any event: a launch only at a commit, with admission open and in the generation of the scheduling; a coroutine whose batch is rolled back, or ends with admission closed or in a later generation, is closed; neither fate is undone; only a restart counts the generation up and only a restart reopens admission; closed admission takes on no work. |
| BackgroundTasks.OneFate | engine/app/api/background_tasks.py:40-80 | Over every run a coroutine that was launched is never closed, and one that was closed is never launched. |
| BackgroundTasks.StampStays | engine/app/api/background_tasks.py:53 | The generation a coroutine was accepted in never changes. |
| BackgroundTasks.NoLaunchAcrossRestart | engine/app/api/background_tasks.py:17-21 | What was scheduled before a restart and not yet launched is never launched. |
| BackgroundTasks.NothingLost | engine/app/db/session.py:54-102 | Once the transactions have ended, every scheduled coroutine was launched or closed. |
| BackgroundTasks.DrainWindow | engine/app/api/background_tasks.py:24-36 | While a drain waits and nobody restarts, admission stays closed and the owned set stays within the drain's snapshot. |
| BackgroundTasks.ClosedAndNotDraining | engine/app/api/background_tasks.py:17-37 | In any state of any run with admission closed and no drain waiting, nothing is owned and nothing runs, whatever restarts came before. |
| BackgroundTasks.DrainLeavesNothing | engine/app/api/background_tasks.py:24-37 | When a drain returns, at once or after its wait, and until the next start, the owned set is empty and no launched work is running, even if deferred launches still fire. |
| BackgroundTasks.DrainEmptiesIff | engine/app/api/background_tasks.py:24-37 | A drain that returns leaves the owned set empty if and only if nothing was launched while it waited, or all of it has been released since. |
| BackgroundTasks.DrainTakes | engine/app/api/background_tasks.py:28-37 | A drain that returns leaves owned nothing that had been launched when it began, whoever restarts meanwhile. |
| BackgroundTasks.RestartDuringDrain | engine/app/api/background_tasks.py:17-37 | A run in which a task is launched after a restart during the wait, and is still owned and running when the drain returns. |
| DeferredWork.ScheduleOutcome | engine/app/api/background_tasks.py:40-80 | Scheduling closes the coroutine when admission is closed; launches it when no transaction is open; and otherwise leaves it waiting, last in the transaction's batch, with the generation of this moment. |
| DeferredWork.LaunchedIffCommitted | engine/app/db/session.py:31-102 | In every run, work scheduled inside a transaction is launched if and only if the batch it has moved to ends committed, with admission open and no restart since; it is closed if and only if that batch ends in any other way; and it waits until then. |
| DeferredWork.ClosedOnlyThen | engine/app/api/background_tasks.py:48-80 | A coroutine is closed only when it is scheduled with admission closed, or when its batch is rolled back or ends with admission closed or in a later generation. |
| DeferredWork.FinishesOnce | engine/app/api/background_tasks.py:59-74 | A launched coroutine is over exactly from its own end on. |
| BackgroundTasksModule.Tasks.Launch | engine/app/api/background_tasks.py:68-74 | Performs the commit side of an entry. |
| BackgroundTasksModule.Tasks.DispatchCompletion | engine/app/db/session.py:31-39 | The loop over a batch performs the dispatch step. |
| BackgroundTasksModule.Tasks.RunAfterCommit | engine/app/db/session.py:42-51 | Outside a transaction the commit side runs at once; inside, the entry joins the batch. |
| BackgroundTasksModule.Tasks.ScheduleBackgroundTask | engine/app/api/background_tasks.py:40-80 | Performs the schedule step: a coroutine refused is closed, one scheduled inside a transaction waits at the end of its batch, any other is launched. |
| BackgroundTasksModule.Tasks.CommitAndFlush | engine/app/db/session.py:54-77 | Performs the detach step and then the end of the detached batch, as committed or not. |
| BackgroundTasksModule.Tasks.ExitScope | engine/app/db/session.py:95-98 | What is left in the batch at the end of the scope counts as rolled back. |
| BackgroundTasksModule.Tasks.BeginDrain | engine/app/api/background_tasks.py:24-30 | Closes admission; with nothing owned the call is over, otherwise it waits for the snapshot it takes. |
| Paging.SeekIsOrder | engine/app/dao/chat_dao.py:281-294 | The seek clauses of the four kinds of page, NULL branches included, select exactly what their ORDER BY puts after the cursor. |
| Paging.PageExact | engine/app/api/chat_sessions.py:293-311 | A page holds exactly the rows of the table between its cursor and the next one. |
| Paging.ListingOrdered | engine/app/api/activity.py:79-98 | Over a whole traversal the rows come in strict order, so none is returned twice, whatever is inserted or removed meanwhile. |
| Paging.ListingExact | engine/app/api/activity.py:79-98 | A traversal returns a row if and only if the row is in the table at the one read that covers its place. |
| Paging.StableRowReturnedOnce | engine/app/api/company_admissions.py:34-50 | A row that is present at every read is returned exactly once. |
| Paging.FixedTable | engine/app/api/company_transfers.py:35-44 | On a table that does not change, a traversal that has ended returned the whole table in order, in max(1, ceil(n / limit)) pages. |
| PagingEnds.ReadingBounded | engine/app/api/company_transfers.py:35-44 | However far a client has followed the cursors on such a table, it has read no more pages than the remaining rows call for. |
| PagingEnds.TraversalExists | engine/app/api/company_transfers.py:35-44 | From any cursor the reading can be carried to its end. |
| PagingEnds.FixedTableEnds | engine/app/api/company_transfers.py:35-44 | On a fixed table of n rows a traversal to the end exists, has max(1, ceil(n / limit)) pages, and no reading is longer. |
| MovingRows.NoIdTwice | engine/app/dao/chat_dao.py:251-305 | While rows move forward in the order between reads, no id is returned twice. |
| MovingRows.ReturnedUnlessOvertaken | engine/app/dao/chat_dao.py:251-305 | An id that is there at every read is returned if and only if it never moved to the cursor or past it before the page that would have shown it. |
| MovingRows.MovingRowCanBeMissed | engine/app/services/chat_persist.py:47-56 | A session that gets a message between two reads and is returned by neither. |
| Base64Url.StandardValues | engine/app/api/chat_sessions.py:93 | The encoder gives the values of section 10 of RFC 4648 and the symbols of the URL-safe alphabet. |
| Base64Url.DecodeEncode | engine/app/api/chat_sessions.py:93-100 | A strict base64url decoder (sections 4 and 5 of RFC 4648) reads back every byte string. |
| Base64Url.RepadStrip | engine/app/api/chat_sessions.py:93-100 | Re-padding by `-len % 4` restores exactly the padding that was stripped. |
| Base64Url.RoundTrip | engine/app/api/chat_sessions.py:93-100 | Unpadded encoding followed by re-padding and decoding is the identity on all byte strings. |
| Base64Url.DecodesIff | engine/app/api/chat_sessions.py:100 | A text can be decoded if and only if it is symbols, not one more than a multiple of four, followed by none, some or all of the padding that belongs to them. |
| Base64Url.PlusAndSlash | engine/app/api/chat_sessions.py:100 | The symbols + and / decode as - and _ do. |
| Base64Url.DecoderNotInjective | engine/app/api/chat_sessions.py:100 | Two different texts decode to the same bytes, so a cursor's text is not canonical. |
| Base64Url.EncodedIsCanonical | engine/app/api/chat_sessions.py:93 | What the encoder writes has only symbols of the URL-safe alphabet, no single one left over, and no bits beyond the last byte. |
| Base64Url.CanonicalIff | engine/app/api/chat_sessions.py:93-100 | A text, whatever it is, is decoded and then written again as it was if and only if it has only symbols of the URL-safe alphabet, a length other than 1 mod 4, and zero bits beyond the last byte. |
| SessionCursor.IssuedParses | engine/app/api/chat_sessions.py:83-106 | An issued cursor gives its position back to the agent and scope it was issued for, and is refused as foreign by every other. |
| SessionCursor.ParseOutcome | engine/app/api/chat_sessions.py:95-106 | A text that cannot be decoded or read is invalid, one with another binding foreign, and any other gives its position; only a missing cursor starts at the front. |
| SessionCursor.IssueInjective | engine/app/api/chat_sessions.py:83-93 | Issued cursors with the same text are the same cursor. |
| SessionCursor.FollowedIsTraversal | engine/app/api/chat_sessions.py:278-312 | A client that sends `next_cursor` texts back gets the traversal that positions would give, and is never refused. |
| SessionCursor.FollowedShows | engine/app/api/chat_sessions.py:304-310 | The pages shown are those of the traversal, with the shared session in front of the first page only. |
| SessionCursor.SharedSessionLeads | engine/app/api/chat_sessions.py:293-312 | The client sees the shared session first and no session twice, told apart by id, while last messages move sessions forward; a session that stays throughout is shown if and only if none of those moves took it past the cursor. |
| ModelSlots.StepKeepsInv | engine/app/api/enterprise.py:386-745 | Each of the six operations keeps all slots of all companies and agents sound: pairwise distinct, and for companies existing, enabled and their own. |
| ModelSlots.StepKeepsTenant | engine/app/api/enterprise.py:386-745 | Each operation keeps a sound company sound. |
| ModelSlots.StepKeepsAgent | engine/app/api/enterprise.py:469-478 | Each operation keeps a sound agent sound, through migration, clearing and removal. |
| ModelSlots.ReachableSound | engine/app/api/enterprise.py:386-745 | In every state reached by the six operations, and by connecting subscriptions that do not collide, the slots are sound. |
| ModelSlots.ConnectKeepsInvIff | engine/app/services/enterprise_llm.py:192-222 | Connecting a subscription keeps all slots sound if and only if none of its writes, to the company or to an agent's primary slot, meets the same model in another slot there. |
| ModelSlots.ReconnectCanOverlap | engine/app/services/enterprise_llm.py:203-221 | A run that ends with one model as a company's primary and fallback: the subscription is its fallback, the default is disabled, the subscription is connected again. |
| ModelSlots.ReconnectCanOverlapAgent | engine/app/dao/agent_dao.py:1073-1102 | A run that ends with one model as an agent's primary and secondary. |
| ModelSlots.AgentAfterSetDistinct | engine/app/dao/agent_dao.py:981-1102 | Migrating one slot and clearing the others leaves an agent's slots distinct, brings in no model but the new one, and leaves that one in no other slot. |
| ModelSlots.SetTouchesOneCompany | engine/app/api/enterprise.py:524-529 | Setting a slot changes no model, no other company and no agent of another company. |
| ModelSlots.RemovedIsForgotten | engine/app/api/enterprise.py:602-647 | After a deletion neither a company nor an agent refers to the model. |
| ModelSlots.TenantModelIds | engine/app/api/onboarding.py:103-140 | The slots resolved for a new assistant are distinct, so the assertion never fires; each names an enabled model of the company; no usable model of the company's slots is lost; and a company in order passes on its own slots. |
| SlotEffects.SetAcceptedIff | engine/app/api/enterprise.py:445-564 | A slot can be set exactly to an enabled model of an existing company, by someone who may manage it, that is in no other slot of the company or goes into the primary one; a refusal changes nothing. |
| SlotEffects.SetCompany | engine/app/api/enterprise.py:469-477 | The company's slot then holds the model, which leaves the company's other slots, and nothing else changes for any company. |
| SlotEffects.SetAgent | engine/app/dao/agent_dao.py:1009-1102 | An agent's slot changes to the model exactly if it held what the company's slot held and, for secondary and fallback, the model is in no other slot of the agent (for primary, the company had one); its own choice stays; other slots only lose the model. |
| SlotEffects.AddEffect | engine/app/api/enterprise.py:386-420 | A new enabled model takes the first free of its company's primary and fallback slots, and nothing else changes. |
| SlotEffects.RemoveAcceptedIff | engine/app/api/enterprise.py:602-647 | A removal needs the right to manage; with a named agent referring to the model it needs force, and with only nameless ones it fails. |
| SlotEffects.RemoveEffect | engine/app/api/enterprise.py:602-647 | A removed model leaves every slot that held it, and nothing else changes. |
| SlotEffects.UpdateEffect | engine/app/api/enterprise.py:657-745 | An update changes the fields it gives, and takes the model out of its company's slots exactly if it disables it. |
| SlotEffects.ConnectCompany | engine/app/services/enterprise_llm.py:192-222 | A connected subscription takes the primary slot if that is empty, or holds a deleted or superseded model, and otherwise an empty fallback. |
| SlotEffects.ConnectAgent | engine/app/services/enterprise_llm.py:192-222 | Agents without a primary model get the company's; those with a superseded one follow if the company's filled primary slot is taken; no other slot and no other agent changes. |
| ModelPool.Pool.ClearOtherSlotsMatching | engine/app/dao/agent_dao.py:981-1007 | The three UPDATEs clear the model from every slot but the kept one. |
| ModelPool.Pool.AddLlmModel | engine/app/api/enterprise.py:386-420 | Performs the add operation. |
| ModelPool.Pool.SetDefaultLlmModel | engine/app/api/enterprise.py:445-478 | Performs the set operation on the primary slot, with its errors. |
| ModelPool.Pool.SetOtherLlmModel | engine/app/api/enterprise.py:496-581 | Performs the set operation on the secondary or the fallback slot, with its errors; `SlotEffects.SetAgent` says slot by slot what that does to an agent. |
| ModelPool.Pool.RemoveLlmModel | engine/app/api/enterprise.py:602-647 | Performs the removal, with its refusal while agents refer to the model. |
| ModelPool.Pool.UpdateLlmModel | engine/app/api/enterprise.py:657-745 | Performs the update; disabling takes the model out of the company's slots. |
| ModelPool.FollowThenClear | engine/app/dao/agent_dao.py:981-1071 | For one agent, migrating a secondary or fallback slot and then clearing the others is the effect of setting that slot. |
| ModelPool.FollowPrimaryThenClear | engine/app/dao/agent_dao.py:1084-1102 | The same for the primary slot, where an empty or equal previous model is not migrated. |
| ModelPool.Pool.MigrateReplacedKeys | engine/app/services/enterprise_llm.py:210-217 | The loop over the company's rows moves exactly the agents that follow a replaced row, each once. |
| ModelPool.Pool.ActivatePoolModelForTenant | engine/app/services/enterprise_llm.py:192-222 | The three branches perform the activation on company and agents. |
| ModelPool.Pool.ConnectSubscription | engine/app/services/grok_subscription.py:211-240 | Saving the company's subscription row and activating it performs the connect operation. |
| PatchQueue.StepKeepsSerial | engine/app/api/feishu.py:231-246 | Every step keeps: the finished jobs are a prefix, at most the next one is running, and the log says they ran one by one. |
| PatchQueue.RunsInOrder | engine/app/api/feishu.py:231-242 | In every run the log is start 0, finish 0, start 1, finish 1 and so on: enqueue order, never two at once. |
| PatchQueue.NothingBlocks | engine/app/api/feishu.py:234-240 | Whatever earlier jobs raised, the first unfinished job is running or may start. |
| PatchQueue.DrainWaitsForAll | engine/app/api/feishu.py:244-246 | A drain is over exactly when every job enqueued before its call has finished. |
| PatchQueue.SerialPatchQueue.Enqueue | engine/app/api/feishu.py:231-242 | Performs the enqueue step on the tail. |
| PatchQueue.SerialPatchQueue.Resume | engine/app/api/feishu.py:234-240 | A runner begins its job exactly when the awaited task is done, with or without an exception. |
| PatchQueue.SerialPatchQueue.Drain | engine/app/api/feishu.py:244-246 | Only the awaited task's own exception reaches the caller, and only when that task is done. |
| StreamingReply.StepKeepsInv | engine/app/api/feishu.py:950-1085 | Every callback, heartbeat, job and drain step keeps: queued texts form a prefix chain, patches are spaced, writes follow job order. |
| StreamingReply.AnswersOnlyGrow | engine/app/api/feishu.py:1009-1042 | Of the cards written to the message before the final one, each answer and thinking text extends the one before. |
| StreamingReply.FinalCardIsLast | engine/app/api/feishu.py:1152-1173 | The final patch goes out only when every queued job is over, and nothing can be written after it. |
| StreamingReply.PatchesAreSpaced | engine/app/api/feishu.py:1009-1032 | A patch not forced by a tool comes at least the interval after the one before, and a heartbeat's patch shows a changed card. |
| StreamingReply.FinishingShortens | engine/app/api/feishu.py:964-968 | A tool's finished line in place of its running line makes the joined tool lines shorter, whether or not an old line is dropped. |
| StreamingReply.ToolLinesReachTheCard | engine/app/api/feishu.py:1044-1079 | Unless a finished call is just being saved, the card queued last has the tool lines of this moment, and the end of the save queues a card with them. |
| StreamingReply.SkippedHeartbeatShowsNothingNew | engine/app/api/feishu.py:1014-1022 | In every run, with a hash that does not collide, a due heartbeat is skipped if and only if the card it would show is the one queued last: the joined text never hides a change. |
| ReplyTexts.TextsFollow | engine/app/api/feishu.py:1034-1058 | In every run the answer is the chunks' texts in order, the thinking that of the thinking callbacks, and the finished lines are one for each tool that is done, with its outcome and name. |
| ReplyTexts.RunningToolsFollow | engine/app/api/feishu.py:1044-1058 | A tool enters the dictionary of running tools under its call id, or its name without one, when it starts, and leaves it when it is done; nothing else touches it. |
| ReplyTexts.QueuedCards | engine/app/api/feishu.py:1009-1032 | A callback queues a card if and only if there is a message, a second has passed since the last card or a tool forces it, and a heartbeat's card hashes differently from the last; the card says everything said so far, with the last 20 finished lines and the running ones. |
| ReplyTexts.EveryCardSaysAll | engine/app/api/feishu.py:1009-1032 | Every card in the queue says everything that had been said when it was queued, and no more. |
| ReplyTexts.WritesFollow | engine/app/api/feishu.py:970-990 | What is written to the message is the cards whose delivery succeeded and the final one, in that order. |
| StreamingReply.Reply.FlushStream | engine/app/api/feishu.py:1009-1032 | Performs the flush on the reply's variables: no message, too early, unchanged, or one queued patch. |
| StreamingReply.Reply.Chunk | engine/app/api/feishu.py:1034-1037 | Appends the text to the answer's buffer, leaves the thinking alone, and performs the chunk step with its flush. |
| StreamingReply.Reply.Thinking | engine/app/api/feishu.py:1039-1042 | Appends the text to the thinking buffer, leaves the answer alone, and performs the thinking step with its flush. |
| StreamingReply.Reply.ToolRunning | engine/app/api/feishu.py:1044-1050 | Performs the tool-running step with its forced flush. |
| StreamingReply.Reply.ToolDone | engine/app/api/feishu.py:1051-1058 | Performs the tool-done step up to the save. |
| StreamingReply.Reply.ToolSaved | engine/app/api/feishu.py:1078-1079 | Performs the forced flush after the save. |
| History.BuildHistory | engine/app/api/feishu.py:249-302 | The appending loop returns the concatenation of the rows' expansions. |
| History.RebuiltConcat | engine/app/api/feishu.py:260-302 | The history of two stretches of rows is the one followed by the other. |
| History.RebuiltCallsAnswered | engine/app/api/feishu.py:272-295 | Every tool call is followed at once by the result under its id. |
| History.RebuiltResultsCalledIff | engine/app/api/feishu.py:272-301 | Every message with role "tool" answers the call just before it, under its id, if and only if no stored row has the role "tool". |
| History.ToolRowStandsAlone | engine/app/api/feishu.py:299-301 | A stored row with role "tool" is replayed as a tool message without id or call. |
| History.SavedCallReplayed | engine/app/services/chat_session_service.py:41-74 | A tool call saved by the engine comes back with its name, arguments, result and id, and under the row's id when it had none. |
| History.RowOrderKept | engine/app/api/feishu.py:260-302 | Every message comes from one row, and the rows come in order. |
| History.PlainsAreRows | engine/app/api/feishu.py:299-301 | Apart from calls and results, a rebuilt history is the rows with the roles system, assistant, user and tool, with their content, in order; rows with any other role but tool_call are dropped. |
| History.CallRowReplayed | engine/app/api/feishu.py:267-296 | What a stored call is replayed as, for any payload object: id, name and arguments of either schema, where an unset first alternative gives way to the second, and the result's text. |
| History.UnreadableCallReplayed | engine/app/api/feishu.py:262-296 | A stored call whose payload cannot be read is replayed with a default name, empty arguments and an empty result, under the row's id. |
| History.NormalizeHistory | engine/app/api/feishu.py:211-222 | The filtering loop returns the messages with an allowed role, in order. |
| History.NormalizedKeeps | engine/app/api/feishu.py:211-222 | Every message is kept with all its copies if its role is one of the five, and dropped otherwise. |
| History.NormalizedIdentity | engine/app/api/feishu.py:211-222 | Normalising changes nothing exactly when every role is allowed. |
| History.NormalizeRebuilt | engine/app/api/feishu.py:211-302 | Normalising a rebuilt history changes nothing. |
| Grants.Permissions.Update | engine/app/api/agents.py:429-543 | The whole call: the error of the first failed check with the table untouched, or the new sharing mode and a table that holds each specified grant once. |
| Grants.Permissions.InsertUsers | engine/app/api/agents.py:491-532 | The three deduplicating loops write one row for each user listed, in scope or required, at the specified level. |
| Grants.Permissions.InsertDepartments | engine/app/api/agents.py:535-543 | The last loop adds one row for each department, in ascending order. |
| Grants.Known | engine/app/api/agents.py:455-461 | Comparing counts and tenants of the rows found accepts exactly the ids that all exist in the agent's tenant. |
| Grants.OneGrantEach | engine/app/api/agents.py:491-542 | After an update no user and no department has two rows. |
| Grants.CustomRows | engine/app/api/agents.py:486-542 | Custom sharing leaves a row for exactly the users listed, in scope, owner or administrator, and the departments supplied or else present before; managing for owner and administrators, else at the level the user is first listed with, else at the default. |
| Grants.SharedRows | engine/app/api/agents.py:465-485 | Company sharing leaves one row at the level asked for; private sharing one row by which the creator, or without one the caller, manages. |
| Grants.RejectionIff | engine/app/api/agents.py:434-461 | Each refusal and when it comes: no right to manage, departments without custom sharing, a department or a user of another tenant. |
| Grants.RewrittenUnique | engine/app/api/agents.py:465-542 | The specification fixes the table up to the order of rows. |
| Grants.UpdateIdempotent | engine/app/api/agents.py:446-542 | Repeating an accepted update is accepted and leaves the same rows, departments omitted or not. |
| Grants.DepartmentsForgotten | engine/app/api/agents.py:442-454 | After company or private sharing, a custom update that omits the departments finds none to keep. |
| Workspace.OneWinnerPerStamp | engine/app/services/storage_runtime/quota_conditional.py:16-45 | Of all writers and deleters that expected one stamp, at most one changed the file. |
| Workspace.CreatorsNeedRemoval | engine/app/services/storage_runtime/quota_conditional.py:16-45 | Two writers that both expected no file both succeed only if the file was removed between their writes, so without removals at most one does. |
| Workspace.CreatorsBothWin | engine/app/services/storage_runtime/base.py:42-44 | A run in which they do, with one removal in between. |
| Workspace.LogRightIffStamped | engine/app/api/files.py:176-203 | For a storage and a kind of request, the logged `before_content` is the content really replaced in every run if and only if the conditional write is atomic, stamps never come back, and the request carries the stamp of an existing file. |
| Workspace.RaceLogsStale | engine/app/services/storage_runtime/base.py:236-254 | For every other storage and kind of request, a run that logs a content which was not the one replaced. |
| Workspace.OneWinnerIffAtomicAndUnique | engine/app/services/storage_runtime/base.py:236-254 | One winner per stamp, and per absence of the file, holds in every run of a storage if and only if its conditional write is atomic and its stamps never come back. |
| Workspace.TwoWinners | engine/app/services/storage_runtime/base.py:236-254 | A run with two winners for every other storage. |
| Workspace.FileEffect | engine/app/api/files.py:156-266 | The file changes only by a request without a token or with the file's own, and is then what that request wants; or by others. |
| Workspace.WriterEffect | engine/app/api/files.py:156-210 | A request reads the content, or its absence; is refused by the guard or changes the file; and logs what it read and what it wanted. |
| Workspace.LoggedAsRequested | engine/app/api/files.py:176-203 | On every storage and in every run a request is logged at most once, with the content it asked for. |
| Workspace.WorkspaceFile.WriteWorkspaceFile | engine/app/api/files.py:156-210 | Alone, a write succeeds exactly when its token is absent or current, changes nothing otherwise, and logs what it replaced. |
| Preview.SameStampSameFile | engine/app/api/file_previews.py:98-107 | A file that still has an earlier stamp has not changed in between. |
| Preview.PreviewExact | engine/app/api/file_previews.py:122-138 | Whatever is written between the three storage calls, bytes are returned exactly when the file was the requested version, of permitted size, at the first and the last lookup, and they are that version's content. |
| Preview.PreviewRefused | engine/app/api/file_previews.py:98-138 | Each refusal and when it comes: 404 without a file at the first lookup, 413 for a file over 20 MiB at any call while the version matches, 409 otherwise. |
| Preview.HashStampsRightIff | engine/app/api/file_previews.py:122-138 | With stamps that are hashes of the content, bytes are answered exactly when the first and the last lookup saw the same requested file and the read saw some file of its size, whose bytes they are. |
| Preview.AnswersRightIff | engine/app/api/file_previews.py:122-138 | For any way of stamping contents and changes: whatever is changed around the three storage calls, every answer is the content of the requested version if and only if a stamp comes back for nothing but the same content, and then only with the very next change or for the empty file. |
| Preview.CountersAndHashes | engine/app/api/file_previews.py:122-138 | A counter of changes is such a way of stamping; no hash of the content is. |
| Preview.ReturningStampDeceives | engine/app/api/file_previews.py:122-138 | With such stamps, an answer of equal size that is not the requested content. |
| OAuthPending.StepKeepsOneFate | engine/app/api/auth.py:932-960 | Every step keeps: what a sign-in stored is in the cache, redeemed once, or expired, and only one of them. |
| OAuthPending.StepKeepsNoneLost | engine/app/api/auth.py:932-960 | Every step keeps: what was stored is in one of those places. |
| OAuthPending.RedeemedAtMostOnce | engine/app/api/auth.py:947-960 | In every interleaving what a sign-in stored is redeemed at most once, even if its token is stored again later. |
| OAuthPending.TokenRedeemedAtMostOnce | engine/app/api/auth.py:947-960 | With tokens that never repeat, a token is redeemed at most once. |
| OAuthPending.LookupIsGenuine | engine/app/api/auth.py:1024-1063 | A redemption that reaches the user lookup has the stored provider, audience and user information, and a tenant in which that sign-in found an active account. |
| OAuthPending.AnswerIff | engine/app/api/auth.py:1024-1063 | Each answer of the second step by the events before it: 400 unless a sign-in for this provider and audience has stored the token and nothing used it up; then 404 for an unknown provider, 403 unless that sign-in found an active account in the chosen tenant, and otherwise the lookup with the sign-in's information. |
| OAuthPending.RefusalBurnsToken | engine/app/api/auth.py:1024-1031 | Any redemption, refused or not, leaves the token worthless until it is stored again. |
| OAuthPending.Redis.SetIfAbsent | engine/app/api/auth.py:932-945 | Stores exactly when the token is unused, and never overwrites. |
| OAuthPending.Redis.GetDel | engine/app/api/auth.py:947-957 | Returns the entry and leaves none. |
| OAuthPending.Redis.SignIn | engine/app/api/auth.py:1130-1153 | Performs the sign-in step; a token in use is an error. |
| OAuthPending.Redis.Redeem | engine/app/api/auth.py:1024-1063 | Performs the redemption step and returns its outcome. |
| Latency.ParseLines | engine/scripts/latency_report.py:54-76 | Each list holds one record for every readable line of its kind, in order, with exactly the integer marks of that kind. |
| Latency.RecordPerLine | engine/scripts/latency_report.py:57-76 | There is one record for each readable line of its kind, in line order, and it holds exactly the marks asked for that are integers in that line, with their values. |
| Latency.PercentileIsLeast | engine/scripts/latency_report.py:79-81 | For 0 < q <= 100 the percentile is in the list, and the values with at least q percent at or below them are exactly those from the percentile up. |
| Latency.PercentileMonotone | engine/scripts/latency_report.py:79-81 | A larger q never gives a smaller percentile. |
| Latency.SortedSorts | engine/scripts/latency_report.py:89 | The sorted values are ascending and a permutation. |
| Latency.RowsSorted | engine/scripts/latency_report.py:84-89 | Every row is a non-empty ascending permutation of what was recorded for its mark or interval. |
| Latency.RowsComplete | engine/scripts/latency_report.py:84-89 | Every mark or interval that was recorded at all has its row. |
| Latency.IntervalsAddUp | engine/scripts/latency_report.py:87-88 | An interval is recorded once for exactly the records that hold both its marks, in order, and each value added to the first mark gives the second. |
| Latency.MarksRecorded | engine/scripts/latency_report.py:87 | A mark is recorded once for exactly the records that hold it, in order, with its own value. |
| Latency.RenderedInOrder | engine/scripts/latency_report.py:92-97 | In every row p50 <= p95 <= p99, and each percentile is a recorded value. |

## Left out

- OAuthPending.TokenRedeemedAtMostOnce: asks for tokens that never repeat, which stands for the randomness of UUID4; RedeemedAtMostOnce does without it.
- StreamingReply.SkippedHeartbeatShowsNothingNew: asks for a hash without collisions whose value on the empty text is 0, as Python's is.
- Preview.PreviewExact: asks for stamps that do not come back; AnswersRightIff says what happens with any other.
- Preview.HashStampsRightIff: asks for a hash without collisions; AnswersRightIff does without it.
- Preview.AnswersRightIff: a stamp depends on the content and on the number of the change, which covers counters, hashes and times but not randomness; PreviewExact covers that.
- MovingRows.ReturnedUnlessOvertaken: rows move forward only, as `last_message_at` does while the clock does not go back.
- Latency.PercentileIsLeast: percentages are exact reals, so the rounding of binary floating point is not part of this model.
- Contract document: Python's equality of booleans with numbers, the order of dictionary keys, and the aliasing of one explicit schema between two calls.
- Contract document: which of several errors is raised first, beyond the order of the audited operations.
- Broadcast: role checks, the blank key's 422, message texts, and receipts deleted together with their tenant or sender. The SHA-256 fingerprint is modelled as the payload it hashes.
- Background tasks: a completion callback that raises, contexts and trace ids, and cancellation of the drain itself. How long a joined task takes is any number of steps.
- Paging: row contents beyond the sort key. In `Paging` a row is its sort key; `MovingRows` tells rows apart by id.
- Cursors: the JSON of the cursor models is a writer and a validating reader assumed inverse to each other.
- Model slots: two operations at the same time (each is one step here), audit records, cache invalidation, tokens, and everything about a model but its company, vendor, kind of payment and whether it is enabled.
- Feishu: building the card from its texts, cancellation of patch tasks from outside, callbacks that outlive the model call, and tool statuses other than running and done, which the model caller does not send. Whether a tool's result counts as a failure is a parameter.
- History.SavedCallReplayed: asks that the stored JSON reads back as it was written and that `str` of a text is the text.
- History: the JSON reader, the JSON writer and `str` are parameters.
- Grants: platform relationships created after the update, cache versions, and a failure of the database between two inserts.
- Workspace files: directories, the local mirror, merged autosaves, the check of a restored revision, and a failure between the write and its log entry. Clients are taken to send stamps the file has had.
- OAuth: expiry is possible at any moment rather than after ten minutes; the provider's own state and code exchange, and what the user lookup does.
- The password change of engine/app/api/auth.py:850-908 compares a hash and then writes it, the two-step pattern that `Workspace` treats.
- Authentication, routing, response shaping, mail, search, the web client and the agent containers.
