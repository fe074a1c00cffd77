# A verified model of feat's protocols and database layer

feat is a multi-agent runtime on top of a document database. This project models the parts of it that
have to be right under concurrency, and proves what they promise. Everything is stated for all inputs
and all runs: any number of contractors, clients, instances or callers, in any interleaving.

| files | what they model |
|---|---|
| `Contracts.dfy`, `ContractRuns.dfy`, `ContractInvariants.dfy`, `ContractPromises.dfy`, `ContractLaws.dfy`, `ContractStates.dfy`, `ContractExamples.dfy`, `AgencyContracts.dfy` | the contract protocol between one manager and any number of contractors: the two state machines, their runs over an unreliable network, what each step must and must not do, runs that complete or go wrong, and the objects that take the steps |
| `EmuDatabase.dfy` | the emulated server: compare-and-swap saves, tombstones, views and their row cache |
| `UpdateDocument.dfy`, `Serializability.dfy`, `UpdateRetries.dfy` | concurrent `update_document` calls |
| `Connection.dfy`, `DescriptorLock.dfy`, `DescriptorInvariants.dfy`, `DescriptorRuns.dfy`, `AgencyAgents.dfy` | buffered change notifications, the own-change flag, and the lock agents take on their descriptor |
| `Update.dfy`, `Conflicts.dfy` | composed updates and the merge of conflicting revisions by their logs |
| `Query.dfy`, `QueryAnswers.dfy`, `QueryPages.dfy` | boolean queries over indexes, sorting, paging and aggregation |
| `ResponseCache.dfy`, `CacheRuns.dfy`, `CacheLaws.dfy`, `CacheEviction.dfy`, `CacheObjects.dfy` | the response cache of the CouchDB driver (RFC 7232, section 3.2 for If-None-Match and section 4.1 for 304) |
| `Migration.dfy` | planning and running document migrations |
| `ExpQueues.dfy`, `Interest.dfy` | the expiration queue and interests limited in their concurrency |

Code that changes objects step by step is a class here, and code that loops is a method with a loop; each
such method is proved to do what a function on values says. The results about runs are lemmas about those
functions. `Wrappers.dfy` holds the option type that stands for None. `dafny verify dfyconfig.toml` checks
the whole project.

## Assumptions

- Contracts: a list of grants with an unknown bid names every open bid before it, and a bid is elected only
  while nothing has been sent to its contractor. This discipline is exactly what the invariant needs, and two
  runs show what happens without it. The check after a bid hook may run at any later time. Any message that was
  ever handed over may be delivered at any time, again, or never.
- Documents: a save is atomic at the server, and so is a fetch, and a save that fails has not been stored; in
  the runs of the descriptor lock nobody deletes the descriptor, and each instance writes it through its queue.
- Merges: no two logs made the same revision, timestamps of updates differ, the links between logs do not
  run in a circle; for two merges to be compared, the root can be fetched.
- Response cache: a request is answered after the call that sent it has returned; an ETag names one version
  of one index; the database sends a 304 only to a request naming the current ETag; each cache identifier
  stands for one request. The database decides an answer at any moment before it arrives.
- Queues: times are whole milliseconds and the clock does not go back.

## Where the code does less than one would expect

- `cancel()` raises when there is nothing to cancel, after having entered the cancelled state.
- The check that follows a bid hook asks only whether the contract is terminated.
- A save that fails on a missing attachment has already stored the document, but has not expired its rows.
- A fetch answered after a save lowers the revision the connection knows, so that its own write is taken for
  a foreign one; it happens exactly if the noted revision is behind a write of the connection.
- At the emulated server a save based on an older copy of a document that has been deleted meanwhile is no
  conflict: it revives the document.
- The removal of logs the root already contains stops at a merge in the history of the root.
- When the root of a merge cannot be fetched the winner takes its place, and its own updates are replayed on it.
- When all replayed updates resign nothing is saved: the document left is the winner's own, whichever won, and a
  modification made meanwhile is not noticed.
- A response is taken to be as fresh as its arrival, though the database decided it earlier: a value can be reused
  for a caller who asked for a later one, and callers who join a request can get an answer older than their call.
- An aggregation sees only those selected documents which the condition asked of its field lists.
- The contexts left for asynchronous migration hooks are lost when a later step builds a new snapshot.
- The rows appended when a sorting index ends ignore `skip`.
- Sorting by a highest-value field turns ascending and descending order around.
- An interest with a limit of zero queues everything for ever and calls itself idle.

For each of these a lemma or a contract gives the input that shows it, or the exact condition under which the
expected property holds, or both.

## Model

| member | source | states |
|---|---|---|
| `ContractPromises.AllOrNothing` | src/feat/agencies/contracts.py:250-264 | In every run, over any number of contractors and any delay, order, repetition or loss of messages: an acknowledgement sent to one contractor excludes a cancellation to any, and every contractor ever granted is acknowledged and really sent the report the manager holds |
| `ContractPromises.TwoPartyAgreement` | src/feat/agencies/contracts.py:578-606 | In every reachable state a contractor that believes itself rejected, granted, cancelled or acknowledged has a record in the corresponding state; the report of an acknowledged one is the one recorded, and the only one it sent |
| `ContractPromises.GrantedIsNeverRejected` | src/feat/agencies/contracts.py:92-117 | A contractor that was in the granted state at any point of a run is never sent a rejection, before or after |
| `ContractPromises.OneVerdictEach` | src/feat/agencies/contracts.py:212-239 | What is sent to one contractor over a run is nothing, one rejection, or one grant followed by at most one of acknowledgement and cancellation; the record tells which |
| `ContractPromises.VerdictIsFinal` | src/feat/agencies/contracts.py:266-277 | After grant or terminate no recorded bid is undecided at any later point, and that step gave every open bid exactly one verdict |
| `ContractPromises.VerdictGiven` | src/feat/agencies/contracts.py:229-239 | One grant or terminate: bids in the grant list get one grant, all other open bids one rejection |
| `ContractPromises.InvOverRun` | src/feat/agencies/common.py:104-132 | The inductive invariant tying records, messages handed over, manager state, contractor states and reports |
| `ContractPromises.OutboxOverRun` | src/feat/agencies/contracts.py:83-87 | Nothing handed over is taken back later in a run |
| `ContractPromises.SettledOverRun` | src/feat/agencies/contracts.py:295-320 | A settled contract stays settled whatever is heard or called later |
| `ContractExamples.ContractCanComplete` | src/feat/agencies/contracts.py:391-408 | The results about runs are not empty: for any contractor and report a run within the assumptions ends with the contractor acknowledged on both sides |
| `ContractExamples.ElectingGrantedBreaks` | src/feat/agencies/contracts.py:241-248 | A run from the beginning, disciplined up to electing a granted bid: an acknowledgement goes out while another granted contractor has neither reported nor been acknowledged |
| `ContractExamples.GrantingUnknownBreaks` | src/feat/agencies/contracts.py:224-235 | A run from the beginning, disciplined up to a grant naming an unknown bid: the grant ends half way, and the contract completes with a bid undecided |
| `ContractExamples.SecondRoundBreaks` | src/feat/agencies/contracts.py:412-425 | That run continued: the check after a late bid hook closes the completed contract again, and the manager ends up having sent an acknowledgement and a cancellation |
| `ContractInvariants.ManagerInvPreserved` | src/feat/agencies/contracts.py:212-277 | A step of the manager keeps the invariant if and only if it respects the discipline on grant and elect |
| `ContractInvariants.GrantPreserves` | src/feat/agencies/contracts.py:214-239 | Granting keeps it if and only if the list has no unknown bid or names every open bid before the first one |
| `ContractInvariants.ElectPreserves` | src/feat/agencies/contracts.py:243-248 | Electing keeps it if and only if nothing has been sent to that contractor |
| `ContractLaws.CheckDecides` | src/feat/agencies/contracts.py:412-425 | The check after an answer changes nothing if the contract is terminated or fewer answers than expected are recorded; otherwise it closes the contract if some bid is open and lets it expire if none is |
| `ContractLaws.AnswerDecides` | src/feat/agencies/contracts.py:340-361 | What a bid, a refusal and a duplicate do: a first answer is recorded and ends the announcement exactly when enough are, a second one raises, and one outside the announced phase is ignored |
| `ContractLaws.AnnouncedUntilEnough` | src/feat/agencies/contracts.py:412-416 | Over runs: no answer ends the announced phase before the number expected from the beginning is recorded |
| `ContractLaws.ExpiryDecides` | src/feat/agencies/contracts.py:334-338 | The announcement timeout ends the announced phase, with open bids closed and without them expired |
| `ContractLaws.HandsOverExactly` | src/feat/agencies/contracts.py:199-277 | In every step, disciplined or not, each contractor is handed exactly the message due to it, appended to those before, and otherwise none |
| `ContractLaws.RecordsFollow` | src/feat/agencies/contracts.py:81-117 | In every step each record becomes what was handed over for it, notes the report of a working contractor, and is never dropped |
| `ContractStates.StatesFollow` | src/feat/agencies/contracts.py:178-277 | The state graph of the manager: which step leads to which state, and that no other step does |
| `ContractStates.FinalizedWhen` | src/feat/agencies/contracts.py:267-277 | A manager is finalized when told to, when it fails or when it is terminated before its end, and its timeout is cancelled then |
| `ContractStates.TimersFollow` | src/feat/agencies/contracts.py:178-237 | Which timeout a manager waits for after every step: the ones it sets, keeps and cancels |
| `ContractStates.RaisesWhen` | src/feat/agencies/contracts.py:199-265 | A verdict raises exactly when it names an unknown bid, and a cancellation or a defection exactly when nobody is at work |
| `ContractStates.TimeoutEnds` | src/feat/agencies/common.py:388-392 | Over runs: a timeout fails a contract never announced, expires a closed one and aborts a granted one |
| `ContractStates.PeersFollow` | src/feat/agencies/contracts.py:449-606 | Over runs: the state graph of a contractor, the messages it hands over, and when it is finalized |
| `ContractStates.PeerTimeoutEnds` | src/feat/agencies/contracts.py:466-540 | Over runs: a timeout closes a contractor that has not answered, expires one that bid or works, and aborts one that reported |
| `AgencyContracts.ManagerContractor.OnEvent` | src/feat/agencies/contracts.py:92-117 | The record object takes exactly the event of its table and hands over the message only if it takes it |
| `AgencyContracts.ManagerContractor.OnReport` | src/feat/agencies/contracts.py:89-90 | A report is noted only by a granted record |
| `AgencyContracts.SendEachIsSendAll` | src/feat/agencies/contracts.py:259-261 | A loop of events over a list of contractors, in any order, leaves what the simultaneous event leaves |
| `AgencyContracts.OnlyListeners` | src/feat/agencies/contracts.py:237-239 | Selecting by state before the loop changes nothing: the records left out refuse the message |
| `AgencyContracts.AgencyManager.WithStates` | src/feat/agencies/contracts.py:122-123 | Each record in one of the states is listed, once |
| `AgencyContracts.AgencyManager.Announce` | src/feat/agencies/contracts.py:178-196 | The announcement step of the specification |
| `AgencyContracts.AgencyManager.Reject` | src/feat/agencies/contracts.py:199-210 | Rejects one known bid, raises for an unknown one, is ignored outside the three states |
| `AgencyContracts.AgencyManager.Grant` | src/feat/agencies/contracts.py:214-239 | Both loops together grant the listed bids and reject all others; an unknown bid raises after the bids before it were granted |
| `AgencyContracts.AgencyManager.Elect` | src/feat/agencies/contracts.py:243-248 | Hands one record over whatever its state |
| `AgencyContracts.AgencyManager.Cancel` | src/feat/agencies/contracts.py:251-264 | Cancels granted and reported records; raises, with the state already changed, when there are none |
| `AgencyContracts.AgencyManager.Terminate` | src/feat/agencies/contracts.py:267-277 | Rejects all open bids and ends the contract unless it is ending already |
| `AgencyContracts.AgencyManager.CheckIfShouldGotoClose` | src/feat/agencies/contracts.py:412-425 | Closes or expires once the expected number of answers is in, unless terminated |
| `AgencyContracts.AgencyManager.OnAnnounceExpire` | src/feat/agencies/contracts.py:334-338 | The announcement timeout closes or expires an announced contract only |
| `AgencyContracts.AgencyManager.TimeoutTarget` | src/feat/agencies/common.py:388-392 | The delayed call enters the state it carries and is spent |
| `AgencyContracts.AgencyManager.OnBid` | src/feat/agencies/contracts.py:340-348 | A first bid gets a record, a second one raises; the check follows at once or later |
| `AgencyContracts.AgencyManager.OnRefusal` | src/feat/agencies/contracts.py:350-353 | A refusal gets a record and is counted towards the expected answers |
| `AgencyContracts.AgencyManager.OnDuplicate` | src/feat/agencies/contracts.py:355-361 | A duplicate counts as a refusal unless its sender is known |
| `AgencyContracts.AgencyManager.OnReport` | src/feat/agencies/contracts.py:363-374 | Notes the report and completes the contract once no granted record is left |
| `AgencyContracts.AgencyManager.OnComplete` | src/feat/agencies/contracts.py:391-408 | Acknowledges all contractors that reported; the reports handed on are theirs, each once |
| `AgencyContracts.AgencyManager.OnCancel` | src/feat/agencies/contracts.py:376-389 | The defection of a known contractor cancels all others; one of an unknown sender only changes the state |
| `AgencyContracts.AgencyContractor.OnMessage` | src/feat/agencies/contracts.py:449-606 | The contractor object takes the steps of the specification; this is its event table |
| `EmuDatabase.CacheNeverShows` | src/feat/database/emu.py:452-461 | Over every run of successful saves, deletions and queries a query returns what mapping every live document afresh returns |
| `EmuDatabase.AgreementPreserved` | src/feat/database/emu.py:393-399 | Each such operation keeps every cached row list equal to the mapping of the stored document |
| `EmuDatabase.FailedSaveShowsFresh` | src/feat/database/emu.py:97-149 | After a save that fails on its attachments a query of a view shows freshly mapped rows if and only if the save was a deletion, nothing or an empty list is cached for the document and the view, or the new body is mapped to the old rows |
| `EmuDatabase.FailedSaveLeavesRows` | src/feat/database/emu.py:119-149 | The whole cache, empty lists and deleted documents included, agrees with the stored documents after such a save if and only if every cached view maps the new body to the old rows |
| `EmuDatabase.FailedSaveShowsOldRows` | src/feat/database/emu.py:119-149 | Such a save can leave a query returning the rows of the old body |
| `EmuDatabase.DeleteMeans` | src/feat/database/emu.py:183-209 | A deletion succeeds if and only if it names the current revision of a live document, which is then neither live nor in any query, and cannot be deleted again; all else, and the store where it fails, stays as it was |
| `EmuDatabase.SaveMeans` | src/feat/database/emu.py:463-480 | A save conflicts if and only if the document is live under another revision; otherwise it is stored under the next revision, and all others stay as they were |
| `EmuDatabase.QueryCaches` | src/feat/database/emu.py:452-461 | A query leaves the rows of every live document cached for its view and touches nothing else |
| `EmuDatabase.Database.CheckRevision` | src/feat/database/emu.py:463-480 | A live document conflicts with every draft not based on its current revision; a tombstone with none |
| `EmuDatabase.Database.SaveDoc` | src/feat/database/emu.py:97-149 | Compare-and-swap on the revision; the document is stored before the attachments are checked and its rows expire after |
| `EmuDatabase.Database.DeleteDoc` | src/feat/database/emu.py:183-209 | Leaves a tombstone under the next revision, with the three error cases |
| `EmuDatabase.Database.PerformMap` | src/feat/database/emu.py:393-399 | Uses a nonempty cached list, maps and caches otherwise |
| `EmuDatabase.Database.QueryView` | src/feat/database/emu.py:211-251 | The loop over live documents in any order returns and caches the rows of each |
| `Serializability.Serializable` | src/feat/database/client.py:614-662 | Every point of an interleaving of N clients that change, delete or resign is serial (the stored document is the fold of the committed methods in commit order, each applied to what its predecessors left, each client committed at most once and exactly if listed, one that resigned did so on a content the document really had, one that found nothing is right) if and only if no client saves on a tombstone before |
| `Serializability.SerializableWithoutDeletion` | src/feat/database/client.py:614-662 | When no method deletes, every point of every interleaving is serial |
| `Serializability.DeletedDocumentRevives` | src/feat/database/emu.py:463-480 | A run in which a client deletes the document and another one saves its older copy without a conflict: the document lives on as if never deleted |
| `Serializability.ConflictNeedsCommit` | src/feat/database/client.py:658-662 | In any run a save conflicts only if someone committed since its copy was the stored document |
| `UpdateRetries.RetryBound` | src/feat/database/client.py:658-662 | In any run, deletions included, N clients doing one update each have at most N(N-1)/2 conflicts together |
| `UpdateRetries.RetriesTerminate` | src/feat/database/client.py:306-312 | No run has more than N(N+1) steps, and where none is left every client has committed, resigned or found no document |
| `UpdateDocument.UpdateCall.GetDocument` | src/feat/database/client.py:294-299 | The fetch as the chain sees it; a missing or deleted document ends the chain |
| `UpdateDocument.UpdateCall.IterateOnUpdate` | src/feat/database/client.py:614-646 | Apply, save the result or a tombstone with the fetched revision, commit or start again; a resigning method ends the chain |
| `UpdateDocument.UpdateCall.ErrbackOnUpdate` | src/feat/database/client.py:658-662 | A conflict sends the chain back to the fetch |
| `Connection.DeliveredOnceInOrder` | src/feat/database/client.py:687-698 | Each notification is delivered exactly once in arrival order; the rest waits in the buffer, which is empty whenever no write is under way |
| `Connection.HeldWhileWriting` | src/feat/database/client.py:224-234 | The lock is held once for each write under way, however they overlap, and with none under way everything that arrived has been delivered |
| `Connection.KeptBack` | src/feat/database/client.py:687-694 | No event after which a write is still under way delivers anything |
| `Connection.OwnAndForeign` | src/feat/database/client.py:700-712 | A delivery is flagged by what is known at that point: one newer than all known is foreign, and one that this connection wrote is own while nothing was noted behind its writes |
| `Connection.OwnOverTrace` | src/feat/database/client.py:522-534 | Over a whole trace every own write stays recognisable if and only if no event notes a revision behind one |
| `Connection.StepKeepsOwn` | src/feat/database/client.py:700-712 | One event keeps all own writes recognisable if and only if what it notes is not behind any of them |
| `Connection.LateFetchForgetsOwnWrite` | src/feat/database/client.py:522-534 | When a late fetch notes a revision behind an own write, that write is flagged foreign: a concrete run |
| `Connection.DbConnection.LockNotifications` | src/feat/database/client.py:224-225 | One more holder of the lock |
| `Connection.DbConnection.UnlockNotifications` | src/feat/database/client.py:227-234 | The last release delivers the whole buffer |
| `Connection.DbConnection.Unlocked` | src/feat/database/client.py:696-698 | The loop delivers the buffer from its front, classifying each notification |
| `Connection.DbConnection.OnChangeReceived` | src/feat/database/client.py:687-694 | Buffers under the lock, delivers at once otherwise |
| `Connection.DbConnection.ProcessChange` | src/feat/database/client.py:700-712 | Own exactly if the known revision is newer or the same |
| `Connection.DbConnection.SaveDocument` | src/feat/database/client.py:253-286 | Lock, save, note the new revision of a document object, save the linked documents in the same way, unlock: also when a save is refused on the way |
| `Connection.SavedAreKnown` | src/feat/database/client.py:276-282 | After a save with all linked documents, and also when it stops half way, every revision it stored is known to the connection |
| `Connection.TreeIsSaved` | src/feat/database/client.py:276-286 | Saving a document saves it and all linked to it, directly or not, one after the other; it fails if and only if one of these saves conflicts, with those before it saved and none after |
| `DescriptorRuns.LastWriterLives` | src/feat/agencies/agency.py:703-715 | For any number of instances in any interleaving: the instance that stored last is never killed by a conflict or a notification |
| `DescriptorRuns.ExactlyOneLives` | src/feat/agencies/agency.py:737-749 | Once every instance has terminated itself or had its store answered with nothing under way to it or kept back, exactly the instance the descriptor names is alive |
| `DescriptorInvariants.StepKeeps` | src/feat/agencies/agency.py:766-807 | Every reload, subscription, store, answer, failure, delivery, and save of another document holding the same lock, also of an instance already told to terminate, keeps: a living instance that stored owns its copy and is about to be told of any overwriting |
| `DescriptorInvariants.FlushKills` | src/feat/database/client.py:227-234 | Releasing the lock after a successful store kills exactly if this was the last holder and something newer was buffered |
| `DescriptorInvariants.AcceptKeeps` | src/feat/database/emu.py:463-480 | An accepted store keeps the invariant of all instances |
| `DescriptorRuns.StagesFollow` | src/feat/agencies/agency.py:728-807 | Each step takes the acting instance to its next stage, and no other |
| `DescriptorRuns.InstanceFollows` | src/feat/agencies/agency.py:728-785 | What a step does to the acting instance: its hold on the lock, its copy, its attempt, its end on a conflict, and what is under way to it |
| `DescriptorRuns.HistoryFollows` | src/feat/database/emu.py:463-480 | A store adds a revision with its writer exactly if it is based on the latest one, and nothing else adds any |
| `DescriptorRuns.NoticesConserved` | src/feat/database/client.py:687-698 | Notifications are neither lost nor repeated: each is under way, kept back or delivered, once |
| `AgencyAgents.AgencyAgent.ReloadDescriptor` | src/feat/agencies/agency.py:728-735 | The reload step of an instance |
| `AgencyAgents.AgencyAgent.SubscribeForDescriptorChanges` | src/feat/agencies/agency.py:699-701 | The subscription step of an instance |
| `AgencyAgents.AgencyAgent.UpdateDescriptor` | src/feat/agencies/agency.py:305-309 | An update joins the queue and is sent at once only if nothing is being saved and its function does not raise |
| `AgencyAgents.AgencyAgent.NextUpdate` | src/feat/agencies/agency.py:787-807 | Takes the oldest update when none is under way; it is sent, or has failed if its function raises |
| `AgencyAgents.AgencyAgent.OnAnswer` | src/feat/agencies/agency.py:768-785 | The answer step: updates are answered in order, none is lost, a conflict or a foreign change kills |
| `AgencyAgents.AgencyAgent.OnFailure` | src/feat/agencies/agency.py:773-785 | A save failing for another reason than a conflict: the update has failed, the agent goes on |
| `AgencyAgents.AgencyAgent.OnNotification` | src/feat/agencies/agency.py:703-715 | The delivery step: a foreign change kills |
| `AgencyAgents.AgencyAgent.OtherSaveBegins` | src/feat/database/client.py:224-225 | Saving another document takes the same lock |
| `AgencyAgents.AgencyAgent.OtherSaveEnds` | src/feat/database/client.py:227-234 | The end of such a save delivers what was kept back if nobody else holds the lock |
| `Update.RunSteps` | src/feat/database/update.py:84-97 | The loop computes the fold with resigning and deletion |
| `Update.StepsMean` | src/feat/database/update.py:84-97 | A composition deletes if and only if some handler deletes what those before it made; otherwise it changes the document to what the last one left if any changes it, and resigns if none does |
| `Update.ResignsWhenAllResign` | src/feat/database/update.py:84-97 | A composition resigns if and only if every handler resigns on the document as it is |
| `Update.StepsSplit` | src/feat/database/update.py:80-97 | A composition can be cut anywhere |
| `Conflicts.FindCommonAncestor` | src/feat/database/conflicts.py:289-308 | Returns the deepest common revision whichever branch is tried first, and nothing exactly when none exists |
| `Conflicts.BuildHistory` | src/feat/database/conflicts.py:295-305 | The inner loop builds the history of one revision |
| `Conflicts.DeepestIsUnique` | src/feat/database/conflicts.py:306-308 | The deepest common revision is unique and independent of the order of the branches |
| `Conflicts.HistoryIsPrefix` | src/feat/database/conflicts.py:293-305 | The history of an ancestor is the first part of the history of its descendant |
| `Conflicts.GetLogsBetween` | src/feat/database/conflicts.py:311-326 | Succeeds exactly for a proper ancestor and returns the linked path |
| `Conflicts.LogsFromRoot` | src/feat/database/conflicts.py:241-246 | From a common ancestor the paths to the conflicting revisions exist, except to that ancestor itself |
| `Conflicts.PathIsUnique` | src/feat/database/conflicts.py:311-326 | There is at most one such path |
| `Conflicts.ExpandMerges` | src/feat/database/conflicts.py:230-232 | The logs kept inside merges are added, nothing else |
| `Conflicts.BuildLookup` | src/feat/database/conflicts.py:234 | The lookup by revision holds exactly these logs |
| `Conflicts.SortPlainLogs` | src/feat/database/conflicts.py:251-253 | The plain logs in the order of their timestamps |
| `Conflicts.TimelineIsUnique` | src/feat/database/conflicts.py:251-253 | There is one such list for a set of logs |
| `Conflicts.RemoveTargetRev` | src/feat/database/conflicts.py:259-265 | The recursive removal removes exactly the logs of the history of the root up to its last merge |
| `Conflicts.ReplaysOnlyNews` | src/feat/database/conflicts.py:255-265 | What is replayed is exactly what lies outside the history of the root if and only if no update lies behind a merge in it |
| `Conflicts.ReplaysWhatTheRootHas` | src/feat/database/conflicts.py:259-267 | An update behind a merge is replayed on a root that contains it: a concrete history |
| `Conflicts.SolveMerge` | src/feat/database/conflicts.py:204-286 | The whole merge: same contents; unsolvable if and only if there is no common ancestor, or it cannot be fetched and is one of the conflicting revisions; modified meanwhile; or the fold of the updates to replay, in time order, over the deepest common ancestor, or over the winner when that cannot be fetched; when all of them resign nothing is saved and a modification is not noticed |
| `Conflicts.MergeLeaves` | src/feat/database/conflicts.py:278-286 | A merge leaves no document if and only if some replayed update deletes what those before it made of the root; otherwise what the last one left, or the body of the winner if none changes anything |
| `Conflicts.MergesAgree` | src/feat/database/conflicts.py:222-276 | Two merges of the same logs and revisions on a root that can be fetched, in any order and with any winners, replay the same updates; they leave the same document if and only if some update does not resign on the root, or the winners are the same |
| `Conflicts.WinnerDoesNotMatter` | src/feat/database/update.py:84-97 | For one conflict: all possible winners end with the same document if and only if some replayed update does not resign on the root |
| `Conflicts.WinnerDecides` | src/feat/database/client.py:623-626 | The logs of a conflict in which all replayed updates resign on the root, and the document left is whichever revision won |
| `Conflicts.NothingReplayedTwice` | src/feat/database/conflicts.py:238-247 | With the winner in the place of its root nothing of its own history is replayed on it if and only if no update lies behind a merge in the history of the root and only merges lie between root and winner |
| `Conflicts.WinnerReplaysItself` | src/feat/database/conflicts.py:238-247 | Two updates of a root that cannot be fetched: the update that made the winner is applied to it again |
| `Query.KeysMeanCondition` | src/feat/database/query.py:196-223 | The key range of a condition keeps exactly the rows of its field whose value satisfies it; so does the reversed range |
| `Query.CompareRow` | src/feat/database/emu.py:40-46 | Comparing a row with the bounds that occur is comparing fields, then values |
| `Query.FetchIndex` | src/feat/database/emu.py:363-391 | The fetched index is sorted and lists exactly the rows the condition asks for |
| `Query.IndexMeansHolds` | src/feat/database/query.py:76-87 | A document is in the fetched index if and only if some live document emits a satisfying value for it |
| `Query.GetBasicQueries` | src/feat/database/query.py:455-484 | The loops compute the plan |
| `Query.PlanIsComplete` | src/feat/database/query.py:455-484 | The plan lists every condition of every nesting level, none twice, and covers the sorting field and all fields whose values are asked for |
| `Query.PlanIsExact` | src/feat/database/query.py:455-484 | The plan is what the parts ask for and the full range of exactly those needed fields no part asks anything of |
| `QueryAnswers.PlanAnswers` | src/feat/database/query.py:696-705 | With the plan fetched no response is missing at any depth |
| `QueryAnswers.QueryEqualsBruteForce` | src/feat/database/query.py:696-714 | For every tree of conditions and nested queries the combined responses select exactly the documents satisfying the tree |
| `QueryPages.GetSortedSlice` | src/feat/database/query.py:717-743 | The loop yields positions skip..stop of the index filtered to the rows with repeats dropped, then rows the index lacks until stop are counted |
| `QueryPages.PagesConcatenate` | src/feat/database/query.py:717-743 | With a covering index consecutive pages concatenate to the sorted result, in the end to all of it, nothing missing and nothing repeated |
| `QueryPages.CoveringListsAll` | src/feat/database/query.py:722-733 | A covering index lists each row exactly once |
| `QueryPages.PageLengthRight` | src/feat/database/query.py:734-743 | In general a page has the length its position asks for if and only if it starts within the part the index knows or the index covers the rows |
| `QueryPages.UncoveredPagesRepeat` | src/feat/database/query.py:734-743 | Two consecutive pages over an index covering nothing repeat a row |
| `QueryPages.SliceIsSound` | src/feat/database/query.py:717-743 | Whatever the index lacks, a slice repeats no row and holds none that does not match |
| `QueryPages.SortedResult` | src/feat/database/query.py:552-557 | The result follows the sorting: by lowest value ascending, by highest descending |
| `QueryPages.FetchHighest` | src/feat/database/query.py:98-128 | A highest-value field keeps one entry for each document, the first in the order its rows are fetched |
| `Query.ReadFromTheEnd` | src/feat/database/query.py:98-128 | A highest-value field reads ranges from their upper end, and single keys upwards like any field |
| `QueryPages.HighestTurnsAround` | src/feat/database/query.py:556-559 | Sorting by such a field turns around when its index is read from the upper end: ascending order never rises, descending order never falls |
| `QueryPages.HighestInOrder` | src/feat/database/query.py:556-559 | The result is in the order asked for if and only if the index is not read from its upper end or the values of the matched documents are all the same |
| `QueryPages.HighestWrongWay` | src/feat/database/query.py:98-128 | Two documents sorted by their highest value, in both orders the wrong way |
| `QueryPages.AndCovers` | src/feat/database/query.py:552-554 | When all parts must hold and the sorting index is one of theirs it covers the result |
| `QueryPages.SelectIds` | src/feat/database/query.py:544-580 | Plan, fetch, combine, slice and aggregate; the count speaks of all that brute force selects, whatever skip and limit are, an aggregation of what is selected and listed in the index fetched for its field |
| `QueryPages.PageHolds` | src/feat/database/query.py:544-553 | With a covering index the page after skip rows has the ids left there, at most limit, from position skip of the sorted result on |
| `QueryPages.PageLength` | src/feat/database/query.py:544-553 | Whatever index is used, the answer of select_ids has min(limit, selected - skip) ids when the indexes of the sorting field cover the selection |
| `QueryPages.PagesJoin` | src/feat/database/query.py:544-553 | The answers for skip = k * limit along one covering index join to the front of the sorted result, of min(selected, pages * limit) rows |
| `QueryPages.AggregatesAll` | src/feat/database/query.py:562-578 | An aggregation sees every selected document having a value of its field if and only if the condition fetched for the field holds of each of them |
| `QueryPages.AggregatesHighest` | src/feat/database/query.py:583-587 | What an aggregation sees of a document is the highest of its values that the condition asks for |
| `QueryPages.AggregationMisses` | src/feat/database/query.py:562-578 | A selected document whose value the aggregation does not see, because the query asked for other values of the field |
| `CacheRuns.ReadyEntries` | src/feat/database/driver.py:745-769 | In every reachable state a ready entry has a size, a cache time and an ETag, and its value is the parse of the body with that ETag |
| `CacheRuns.OneRequestEach` | src/feat/database/driver.py:583-604 | At most one request is under way for each entry and each cache id |
| `CacheRuns.FiredExactlyOnce` | src/feat/database/driver.py:771-776 | Each caller is on one list or was fired once, never both nor twice; with no request under way nobody waits |
| `CacheRuns.Transparent` | src/feat/database/driver.py:734-776 | After a 200 or 304 a caller has what an uncached request produces at the moment the database decided, which lies between the sending of the request it made or joined and the arrival; a reused value is what one produces at the moment the database last vouched for it |
| `CacheRuns.WhenRecent` | src/feat/database/driver.py:599-602 | A reused value is sure to be one of after the moment the caller named if and only if that moment lies before the one the database last vouched at, and an answer one of no earlier than the call if and only if the call is no later than the decision, or else the resource never changes |
| `CacheRuns.SureWhen` | src/feat/database/driver.py:599-602 | The exact condition under which a value decided at one moment is one of after another, whatever the database does later |
| `CacheRuns.LateResponse` | src/feat/database/driver.py:748-761 | A run in which the index changes between the decision and the arrival of a response: a caller of after the change, and one asking for something later still, both get the old value |
| `ResponseCache.AnsweredOk` | src/feat/database/driver.py:745-769 | One response keeps the entry sound and leaves the value of an uncached request at the moment it was decided |
| `ResponseCache.FreshenedOk` | src/feat/database/driver.py:881-887 | A 304 vouches, for the moment it was decided, for all entries with its ETag |
| `CacheLaws.CallDecides` | src/feat/database/driver.py:583-618 | A call joins the request under way, is answered at once exactly when what is cached is recent enough, and otherwise sends one request naming the cached ETag and waits for it |
| `CacheLaws.ResponseIsKept` | src/feat/database/driver.py:745-769 | An entry is ready after a response exactly if that is a 304 or a usable body with an ETag, which is kept with its value and size; otherwise it is invalid |
| `CacheLaws.ResponseSetsTimes` | src/feat/database/driver.py:747-766 | A 304 restarts the freshness of its entry and of all cached ones with its ETag; the first usable body starts the freshness and the time in the cache; nothing else changes them |
| `CacheLaws.CachedFromOnce` | src/feat/database/driver.py:763-765 | Over runs: the time an entry is cached from never changes again |
| `CacheLaws.AccessesAreUses` | src/feat/database/driver.py:734-737 | Over runs: the accesses counted for an entry are the calls that were given it |
| `CacheObjects.CacheEntry.Wait` | src/feat/database/driver.py:734-743 | A ready entry answers, any other lists the caller; both count the access |
| `CacheObjects.CacheEntry.GotResponse` | src/feat/database/driver.py:745-776 | The three kinds of response, and one call for each caller on the list, in order |
| `CacheObjects.Cache.GetUrl` | src/feat/database/driver.py:798-801 | Finds what is cached and not invalid, after the cleanup that may be due |
| `CacheObjects.Cache.BumpCounter` | src/feat/database/driver.py:807-810 | Cleans up on every 500th operation only |
| `CacheObjects.Cache.Cleanup` | src/feat/database/driver.py:812-876 | Removes what the specification of a cleanup says |
| `CacheObjects.Cache.FreshenEntries` | src/feat/database/driver.py:881-887 | Marks every cached entry with the ETag of the 304 as fresh |
| `CacheObjects.CachingConnection.CouchdbCall` | src/feat/database/driver.py:583-618 | A call joins, revalidates, reuses or sends a new request as specified, and keeps the invariant of the runs |
| `CacheObjects.CachingConnection.OnResponse` | src/feat/database/driver.py:612-618 | A response freshens, settles its entry and calls its callers as specified, and keeps the invariant of the runs, however long ago the database decided it |
| `CacheEviction.CleanupRemoves` | src/feat/database/driver.py:832-876 | After a cleanup no invalid entry remains, no waiting one was removed, and every ready entry removed ranks before every one left |
| `CacheEviction.CleanupFits` | src/feat/database/driver.py:855-876 | The ready entries left fit the desired size or are a single one, and would not have fitted with the last one removed, which ranks after all others removed |
| `CacheEviction.LeastUsedGo` | src/feat/database/driver.py:838-867 | Compared across, each entry given up was used less for its time in the cache than every one left, or as much and is bigger, or as big and comes first |
| `CacheEviction.CleanupLeaves` | src/feat/database/driver.py:855-870 | The sizes of the entries left fit or only one is left, and with some removed one they would not have fitted |
| `CacheEviction.CleanupIsUnique` | src/feat/database/driver.py:832-876 | What is removed does not depend on the order of the dictionary |
| `CacheEviction.EvictionFits` | src/feat/database/driver.py:865-870 | The loop stops as soon as the rest fits |
| `CacheEviction.GiveUp` | src/feat/database/driver.py:862-870 | The loop removes the front of the ranking up to that point |
| `Migration.PlanMigration` | src/feat/database/document.py:283-307 | Returns the steps of the shortest registered increasing chain, the lowest versions first among those, and fails if and only if there is none |
| `Migration.BestIsUnique` | src/feat/database/document.py:291-306 | That chain is determined by the registry |
| `Migration.CombinationsComplete` | src/feat/database/document.py:294 | Every increasing choice of versions in between is among those tried |
| `Migration.CombinationsInOrder` | src/feat/database/document.py:294 | They are tried in lexicographic order |
| `Migration.TryDivision` | src/feat/database/document.py:295-306 | The inner loop yields the steps along one division if and only if all are registered |
| `Migration.AdaptVersion` | src/feat/database/document.py:266-281 | The snapshot goes through the planned steps in order, collects their contexts and is marked as migrated |
| `Migration.ContextsAreKept` | src/feat/database/document.py:276-279 | The contexts of all steps are kept, along every plan, if and only if every hook passes on those in the snapshot it is given |
| `Migration.ContextIsLost` | src/feat/database/document.py:268-279 | Two steps of which the second builds a new snapshot: the context of the first is gone |
| `Migration.MigrationReachesTarget` | src/feat/database/document.py:266-281 | Along any registered chain each hook gets a snapshot of the version it was written for, and the last leaves the target version |
| `Interest.LimitHolds` | src/feat/agencies/protocols.py:131-161 | In every run active conversations stay within the limit, a nonempty queue means the limit is in use, and every accepted message has exactly one fate: started once, queued, refused, expired or cleared |
| `Interest.IdleMeansEmpty` | src/feat/agencies/protocols.py:131-137 | That no conversation under way means an empty queue holds in all runs if and only if the limit is not zero |
| `Interest.ScheduledMeans` | src/feat/agencies/protocols.py:148-161 | Over runs: a message is started at once if there is no limit or it is not reached; otherwise it is queued if it is live and dropped if not |
| `Interest.NothingIsLost` | src/feat/agencies/protocols.py:148-161 | Over runs: what was refused or has expired is past its expiration, only clearing clears, and without a limit every message is started |
| `Interest.ProcessedMeans` | src/feat/agencies/protocols.py:206-220 | Over runs: after a conversation the next one is started exactly if a live message waits, and the waiters are told exactly when none is under way |
| `Interest.BaseInterest.IsIdle` | src/feat/agencies/protocols.py:131-137 | Idle exactly if no conversation is under way; then nothing is queued, unless the limit is zero |
| `Interest.EarliestFirst` | src/feat/agencies/protocols.py:206-215 | Of two starts from the queue in a run, with nothing scheduled in between, the earlier one expires no later |
| `Interest.BaseInterest.ScheduleMessage` | src/feat/agencies/protocols.py:148-161 | Queues at the limit, starts below it, and ignores other message types |
| `Interest.BaseInterest.MessageProcessed` | src/feat/agencies/protocols.py:206-220 | Starts the live message with the earliest expiration, or notifies when idle |
| `Interest.BaseInterest.ClearQueue` | src/feat/agencies/protocols.py:144-146 | All queued messages are cleared |
| `ExpQueues.ExpQueue.Add` | src/feat/common/container.py:636-654 | An expired item is dropped silently, any other one queued; when packing is due it happens first |
| `ExpQueues.ExpQueue.Pop` | src/feat/common/container.py:656-670 | Returns a live item none of the live ones precedes, drops every expired one and reports each of them once; empty only if none is live |
| `ExpQueues.ExpQueue.Pack` | src/feat/common/container.py:730-741 | Keeps exactly the live items and reports each expired one once |
| `ExpQueues.ExpQueue.LazyPack` | src/feat/common/container.py:723-728 | Packs exactly when the heap outgrows 1.25 times its average size and the last packing is a second ago |
| `ExpQueues.PackingIsRare` | src/feat/common/container.py:723-728 | Packing is tried exactly when the heap is more than a quarter above its average and a second has passed |
| `ExpQueues.AverageIsMean` | src/feat/common/container.py:345-360 | The running average is its preset until there is a point, then the mean of all points so far |
| `ExpQueues.ExpQueue.HeapPop` | src/feat/common/container.py:813-823 | A smallest item by the comparison of the queue leaves the heap |

## Left out

- EmuDatabase.Database.SaveDoc: does not notify change filters and does not keep the bodies of attachments; whether all named attachments are at hand is a parameter.
- EmuDatabase.Database.DeleteDoc: does not notify change filters and does not drop the attachments of the document.
- EmuDatabase.Database.QueryView: stops at the rows by document; filtering and sorting are those of Query.FetchIndex, slices, reduce functions, `group` and `include_docs` are not modelled.
- UpdateDocument.UpdateCall.IterateOnUpdate: does not write the update log of the merge strategy.
- Attachments of a saved document, and what creating a link writes into the linked one: the body to be saved is given.
- QueryPages.SelectIds: takes all fields to be plain ones; `ListValueField` and `SumValueField`, which fold several rows of a document, are not modelled, and `HighestValueField` is only by QueryPages.FetchHighest.
- QueryPages.SortedResult: speaks of an index sorted as asked; an index of a highest-value field may not be, see QueryPages.HighestInOrder.
- Running the asynchronous hooks for which the contexts were left, and storing the migrated document.
- Conflicts.SolveMerge: does not restart after `Modified`, and does not delete the losing revisions afterwards.
- Nested contracts, `handover` and `update_manager_address`: they change who a message comes from.
- What becomes of an elected bid at the manager that took it over.
- Expiration times of contract messages: a timeout may fire at any time while it is set.
- Deletion of the descriptor in the runs of the descriptor lock, and saves whose answer is lost after they were stored.
- `save_attachment`, `copy_doc` and `load_fixture` of the emulated server.
- The field in which a query object keeps its plan: queries are values here and the plan is computed anew.
- Conditions with other field names than their index, and query values other than integers: only their order matters here.
- Which of several indexes fetched for the sorting field is used: it depends on the order of a dictionary, and the results hold for each.
- Requests without a cache identifier, reconnecting, and the running averages and warnings of the cache.
- The stages of an agent before its descriptor is reloaded.
- The order of equal items within a heap: popping is modelled as the removal of some smallest item.
- `ExpQueue.snapshot` and `recover`, iteration over and comparison of queues, relative expirations, and `ExpDict`.
- Binding and revoking of interests, and the conversations an interest starts.
- Finding the registry entry of a migration by document type: the registry holds the steps of one type.
- Deferreds, fibers, replay, serialization, adapters and logging: callbacks are steps that happen in any order.
