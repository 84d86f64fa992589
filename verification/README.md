# Drawpile thin server: a verified model of the session core

A drawing session of the Drawpile server is one totally ordered log of messages that every client
replays. This project models the part of the server that keeps that log, and the protocol that
writes, resets and delivers it, and proves what the design promises about it.

The files, in dependency order:

| file | what it models |
|---|---|
| `Wrappers.dfy` | an option type and a predicate on lists |
| `Messages.dfy` | messages, their byte encoding, and who a log says is present |
| `SessionHistory.dfy` | the history as a value (the in-memory history): numbering, size limit, reset, autoreset threshold |
| `Blocks.dfy` | block partitions, what one batch is, and the refinement between block-wise and flat batches |
| `FiledHistory.dfy` | the file backed history as an object over the bytes of its file: block index, caches, scan on reload |
| `Delivery.dfy` | the clients' cursors into the log, over every interleaving of appends, resets and pulls |
| `SessionModel.dfy` | the session state machine as functions on a value: join, leave, client messages, commands, resets |
| `SessionSafety.dfy`, `SessionHeld.dfy`, `SessionRuns.dfy`, `SessionOperators.dfy`, `SessionListing.dfy` | the invariant every step keeps, what becomes of held messages, and the theorems over whole runs |
| `Session.dfy` | the session object; each method is proved to have exactly the effect the model gives it |
| `Restart.dfy` | a server that stops and starts again |
| `ResetProtocol.dfy` | the reset handshake between a client and the server over a first-in-first-out channel, and the client's half of it |
| `SessionSenders.dfy` | whose id a message is logged under, and what starts and ends Initialization and resets |
| `SessionEffects.dfy` | what each request of a client or the admin interface brings about, and for whom it does not |
| `IdQueue.dfy` | user id allocation |
| `SessionBan.dfy` | the session ban list |
| `Announcements.dfy` | session listings and their refresh |
| `JournalText.dfy`, `Journal.dfy` | the metadata journal, as text, and its replay |

Some choices that matter when reading the statements:

- Sizes and indices are unbounded numbers; the 32 bit counters of the program are not modelled.
- Operations that the program writes as mutually recursive are split where the recursion cannot
  happen. Granting operator status never kicks anybody (`SessionSafety.Grants`), and outside
  Initialization nobody is on hold (`SessionRuns.NobodyHeld`), so leaving a reset has nothing to
  release.
- `switchState` assigns the state last. Held messages are therefore handled in the state
  Initialization with no init user, over a snapshot of the client list; a client that was removed
  by an earlier held message is passed over.
- A session that was shut down is gone (`deleted`); no event reaches it any more.
- The field `seen` of the model only observes. It records illegal state changes (`crashed`), the clients
  told to perform an autoreset (`asked`), refused join and leave messages (`refused`) and lists of
  operators (`unlisted`), appends that left a log in want of a reset without an autoreset query
  (`silent`), queries for a log that does not want one (`early`) and the number of resets (`resets`).
- A client's channel to the server is first-in-first-out: a run has its messages in the order sent.
- The session theorems assume what the login promises of a new client, an id that no connected client
  has. The login checks that the session is not full, but lets moderators past that check; a moderator
  who joins a session of 254 gets an id that is in use (`IdQueue.IdQueue.AssignId`), and nothing here is
  claimed about such a session.
- Methods of the session object that have neither a loop nor a recursion, and do what the model's
  function of the same name does, have no row below; the rows about that function say what it means.
- A few predicates are written as an equation with `true`; the verifier then proves them as one goal.
- Where the code and its comments differ, the model follows the code. The comment on listing
  refreshes says that all sessions of a list server are refreshed together; the loop takes along only
  those that come after the first expired one (`Announcements.Due`).

## Model

| member | source | states |
|---|---|---|
| Messages.DecodeEncode | src/libshared/net/message.cpp:40-53 | what is written at a position is read back there, whatever bytes surround it |
| Messages.DecodeFrame | src/libshared/record/header.cpp:153-175 | reading a message depends on no byte behind it |
| Messages.SumLengths | src/libserver/sessionhistory.cpp:75-78 | the size loop computes the total length |
| SessionHistory.IndicesGoOn | src/libserver/sessionhistory.cpp:61-89 | index numbers are never reused: appends and resets move the last index by exactly the stored messages, a reset starts right behind it, and the size stays the stored length |
| SessionHistory.ThresholdIff | src/libserver/sessionhistory.cpp:91-101 | the effective threshold is crossed exactly if autoreset is enabled and the log has outgrown the last reset image by more than the threshold, or nine tenths of the limit |
| Blocks.BatchIsNextSlice | src/libserver/filedhistory.cpp:543-584 | for every partition, one batch is the consecutive run right after the given index (or from the first message on, if that was discarded), never empty while something is left |
| Blocks.DrainIsGetBatch | src/libserver/filedhistory.cpp:543-584 | refinement: repeating the block-wise batch concatenates to exactly one batch of the in-memory history |
| FiledHistory.BlocksTile | src/libserver/filedhistory.cpp:437-456 | each block starts, in indices and in bytes, where the one before ends, and the last one ends at the end of the history |
| FiledHistory.RecordsAppend | src/libserver/filedhistory.cpp:586-591 | writing a message at the position keeps every earlier message readable and adds exactly this one |
| FiledHistory.RecordsAreWhole | src/libserver/filedhistory.cpp:372-411 | a recording reads back as exactly its messages, then whatever whole messages follow the position |
| FiledHistory.StopAnywhere | src/libserver/filedhistory.cpp:377-386 | a stop at any byte, over any older content of the file: reading gives the longest prefix of the history that was complete, then what the older content has behind it; nothing, if the file ends at the cut |
| FiledHistory.FiledHistory.StopAndReload | src/libserver/filedhistory.cpp:338-421 | reload after a stop at any byte, of any session: the surviving messages followed by exactly one leave per user then present; nobody is left; a stop after the last byte of a clean file loses nothing and leaves it clean |
| FiledHistory.ReloadsExactlyIff | src/libserver/filedhistory.cpp:359-421 | a reload finds exactly the history if and only if no message can be read behind the write position |
| FiledHistory.TruncatedTailResurfaces | src/libserver/filedhistory.cpp:377-419 | a truncated tail is overwritten but not cut off: for every user who has joined when the server stops inside a put-image command, there is data of the command of which the second reload reads the rest as a chat message |
| FiledHistory.FiledHistory.Coherence | src/libserver/filedhistory.cpp:437-456 | position and size agree with the last block, only the last block can be empty, and every cache is empty or its slice of the history |
| FiledHistory.PresentAfterLeaves | src/libserver/filedhistory.cpp:413-419 | leave messages remove exactly the users they name |
| FiledHistory.IndexedEvict | src/libserver/filedhistory.cpp:626-636 | dropping caches keeps the index valid for the same partition |
| FiledHistory.FiledHistory.constructor | src/libserver/filedhistory.cpp:118-171 | a new session has an empty history, one empty block behind the header, and nothing behind the write position |
| FiledHistory.FiledHistory.HistoryAdd | src/libserver/filedhistory.cpp:586-603 | file, index and position move together; the last block grows by the message and is closed exactly if it is over the maximal size; a clean file stays clean |
| FiledHistory.FiledHistory.CloseBlock | src/libserver/filedhistory.cpp:437-456 | a new empty block is opened exactly if the last is not empty; the history stays |
| FiledHistory.FiledHistory.AddMessage | src/libserver/sessionhistory.cpp:61-71 | the object does what the in-memory history does; refused exactly if out of space; a clean file stays clean |
| FiledHistory.FiledHistory.InitRecording | src/libserver/filedhistory.cpp:141-171 | a fresh file with one empty block that starts at the first index |
| FiledHistory.FiledHistory.HistoryReset | src/libserver/filedhistory.cpp:605-624 | file and index hold exactly the new messages |
| FiledHistory.FiledHistory.Reset | src/libserver/sessionhistory.cpp:73-89 | the object does what the in-memory history does; refused exactly if the image does not fit; the new file is clean |
| FiledHistory.FiledHistory.LoadBlock | src/libserver/filedhistory.cpp:559-581 | the cache becomes the block's slice of the file, and the write position is restored |
| FiledHistory.FiledHistory.FindBlock | src/libserver/filedhistory.cpp:545-551 | the search from the last block ends at the block that holds the next index |
| FiledHistory.FiledHistory.GetBatch | src/libserver/filedhistory.cpp:543-584 | the result is the batch of the partition, whatever is cached; index, file and write position are as before |
| FiledHistory.FiledHistory.CleanupBatches | src/libserver/filedhistory.cpp:626-636 | the early exit is exact: precisely the blocks that end before the index lose their cache |
| FiledHistory.FiledHistory.RestartRecording | src/libserver/session.cpp:885-892 | the copy loop ends and writes everything after index zero, once and in order: the whole history if the first index is positive |
| FiledHistory.FiledHistory.ScanBlocks | src/libserver/filedhistory.cpp:359-421 | the scan rebuilds a valid index over all whole messages of the file and adds one leave message for each user still present |
| FiledHistory.FiledHistory.HistoryLoaded | src/libserver/sessionhistory.cpp:53-59 | size and last index are the sums over the rebuilt history |
| FiledHistory.FiledHistory.Load | src/libserver/filedhistory.cpp:338-357 | the loaded history is the whole messages of the file followed by exactly one leave per user then present; nobody is left; fails exactly if it is empty |
| Restart.StopAndRestart | src/libserver/filedhistory.cpp:338-421 | a server that stops and loads the history of a session in any reachable state: exactly one leave message per connected client, if no join or leave was refused, and a history that a new session can start from |
| Delivery.StepOk | src/libserver/thinserverclient.cpp:34-49 | every append, reset, repartition, join, leave, skip and pull keeps every client's record consistent with the log |
| Delivery.TotalOrder | src/libserver/thinserverclient.cpp:34-49 | in every run, what a client was handed is what those indices have for everyone; indices go up by one, and every jump lands exactly on the first index at the time of the pull, where a reset started |
| Delivery.SinceResetIsSlice | src/libserver/thinserverclient.cpp:43-46 | what a client received since the last reset is exactly the current window up to its cursor |
| Delivery.PrefixComparable | src/libserver/thinserverclient.cpp:34-49 | in every run, of what any two clients received since the last reset, one is a prefix of the other from the later of their beginnings on; only the host, which skips its own upload, begins later than the window |
| Delivery.PullProgress | src/libserver/filedhistory.cpp:543-584 | a client that is behind receives something with every pull |
| Delivery.CatchesUp | src/libserver/thinserverclient.cpp:34-49 | for every client there is a number of pulls that, run one after the other, take it to the last index |
| Delivery.ThinServerClient.SendNextHistoryBatch | src/libserver/thinserverclient.cpp:34-49 | one pull: nothing while uploading or not running, else the next batch is sent, the cursor moves to its last index, and no block that everybody is past stays cached |
| Delivery.CleanupHistoryCache | src/libserver/thinsession.cpp:106-113 | exactly the blocks that every connected client is past, and that are not at the end, lose their cache; the history is as before |
| SessionSafety.Stores | src/libserver/sessionhistory.cpp:61-71 | what one accepted message adds to the size, to who is present and to what the log has from clients |
| SessionSafety.Adds | src/libserver/thinsession.cpp:37-104 | an append touches only the log and the autoreset status; only a full log refuses, and only then is a join or leave lost |
| SessionSafety.QueryIff | src/libserver/thinsession.cpp:62-94 | the query is sent exactly if it was not sent before and the log wants a reset |
| SessionSafety.Grants | src/libserver/session.cpp:463-478 | granting operator status takes it from nobody, so no resetter is kicked; the client has it afterwards |
| SessionSafety.EnsuresOperator | src/libserver/session.cpp:830-848 | appointing an operator changes neither users, state, reset buffer nor what the log has from clients |
| SessionSafety.PresentImage | src/libserver/session.cpp:74-95 | a reset image names exactly the connected clients |
| SessionSafety.ResetOutcome | src/libserver/session.cpp:106-136 | all or nothing: the log is the server's own messages, the upload and the settings, numbered on, with their size as the new base, or it is untouched; the buffer is empty either way |
| SessionSafety.Finishes | src/libserver/session.cpp:104-153 | leaving a reset re-establishes the whole invariant with the same clients |
| SessionSafety.Removes | src/libserver/session.cpp:225-262 | removing any client, also one unfit to go on with its reset, leads to a state that satisfies the invariant, with the log only added to |
| SessionSafety.Uploads | src/libserver/session.cpp:687-705 | an upload message is buffered if the buffer stays within the limit; otherwise its sender is removed, the buffer emptied and the session runs again |
| SessionSafety.UpdatesOwnership | src/libserver/session.cpp:422-461 | changing the operators keeps the invariant; a resetter that loses the flag is removed and its reset ends; the listed ones stay |
| SessionSafety.HandlesWire | src/libserver/session.cpp:611-685 | a client message keeps the invariant and adds to the log exactly that message, as it took effect, if it is not filtered, uploaded or refused |
| SessionSafety.HandlesCommand | src/libserver/opcommands.cpp:302-333 | every server command keeps the invariant and adds no message from a client |
| SessionSafety.Unlocks | src/libserver/client.cpp:395-403 | handling a held queue keeps the invariant, puts nobody on hold and ends with the client released or gone |
| SessionSafety.Starts | src/libserver/session.cpp:97-154 | leaving Initialization ends with everybody released and the session running, whatever the held messages are |
| SessionHeld.StartGrows | src/libserver/session.cpp:141-142 | when the session starts, what the log has from clients grows by exactly what the held messages come to, client by client and in the order sent, each in the state that the ones before it led to |
| SessionHeld.HeldDelivered | src/libserver/client.cpp:395-403 | held messages that are neither commands nor lists are appended to the log exactly, client by client and in the order sent, as far as the filter keeps them and they fit; all that the filter keeps, if there is no limit |
| SessionSafety.JoinsUser | src/libserver/session.cpp:169-223 | a join keeps the invariant and adds exactly this client |
| SessionSafety.StepKeeps | src/libserver/session.cpp:97-270 | every event keeps the invariant |
| SessionRuns.StateMachineSafety | src/libserver/session.cpp:97-154 | in every reachable state: no illegal state change, Running has no init user, Resetting has a connected operator as init user, holds only in Initialization, the buffer size is what is buffered and within the limit |
| SessionRuns.PresenceLog | src/libserver/session.cpp:225-262 | in every reachable state that is not shut down, unless a join or leave was refused since the last reset, the log names exactly the connected clients |
| SessionRuns.LeaveAgreesIff | src/libserver/session.cpp:251-251 | a departure keeps log and clients in agreement exactly if the log has room |
| SessionRuns.JoinAgreesIff | src/libserver/session.cpp:199-199 | an arrival keeps log and clients in agreement exactly if the log has room |
| SessionRuns.FullLogDisagrees | src/libserver/sessionhistory.cpp:61-64 | runs from a new session, whose limit the host's join uses up, after which a departure and an arrival are missing from the log |
| SessionRuns.NobodyHeld | src/libserver/session.cpp:193-194 | outside Initialization no client is on hold |
| SessionRuns.FailedReset | src/libserver/session.cpp:245-271 | a reset that does not succeed, over every run and however it ends: the log is the old one followed by exactly what the others sent meanwhile (operator and trust lists included), in order, among joins, leaves and the server's own messages; the buffer is empty |
| SessionRuns.RunMoves | src/libserver/session.cpp:611-685 | over every run without a successful reset, from a new session on, what the log has from clients grows by exactly what the clients sent: nothing while on hold, what was held when the session starts, and then each message in turn |
| SessionRuns.AutoResetNegotiation | src/libserver/thinsession.cpp:62-156 | over every run: between two successful resets at most one client is told to reset, no query is sent for a log that does not want a reset, and no append leaves one that does without the query |
| SessionRuns.KilledWhileStarting | src/libserver/session.cpp:788-807 | Shutdown is not absorbing: a held kill-session deletes the session, which then still becomes Running |
| SessionOperators.KilledAndRunning | src/libserver/session.cpp:788-807 | the same as a run from a new session: a guest hosts, a moderator joins and asks for the shutdown, the host completes the upload; the session is gone, and Running |
| SessionOperators.OperatorExists | src/libserver/session.cpp:830-848 | over every run of joins, departures and client messages, a non-empty session without opword and remembered operators has an operator |
| SessionOperators.OwnershipManned | src/libserver/session.cpp:634-645 | whoever changes the operators stays one, so the session is not left without |
| SessionOperators.RevokeMannedIff | src/libserver/client.cpp:139-144 | taking the flag through the admin interface leaves an operator exactly if the client is a moderator or was resetting, or there is another operator, opword or remembered account |
| SessionOperators.AdminCanUnman | src/libserver/client.cpp:139-144 | in every new session hosted by a guest: the run host joins, completes the upload, loses the flag through the admin interface, ends without an operator |
| SessionOperators.UnprivilegedOnlySpeaks | src/libserver/opcommands.cpp:302-333 | a client that is not an operator and does not know the opword can only add messages to the log and, as a deputy, kick |
| SessionOperators.KickSparesProtected | src/libserver/opcommands.cpp:155-194 | no kick removes a moderator, its sender or, if the sender is only a deputy, an operator or trusted user |
| SessionListing.OperatorsListed | src/libserver/session.cpp:422-478 | over every run, unless a list was refused since the last reset, the newest list of operators in the log names exactly the operators among the connected clients; provided that no resetter uploads a list, no client comes back under a listed id without the flag, and the admin interface does not deprive an only operator in the middle of its reset |
| SessionListing.StepKeepsList | src/libserver/session.cpp:422-478 | every event that meets these conditions keeps the agreement |
| SessionListing.FinishesList | src/libserver/session.cpp:106-136 | a reset, successful or not, keeps it, if no list was uploaded |
| SessionListing.InstalledListDecides | src/libserver/session.cpp:106-136 | if a list was uploaded, a successful reset agrees with the flags exactly if that list does |
| SessionListing.UploadedListLost | src/libserver/session.cpp:634-645 | if the reset is cancelled, a list that the resetter uploaded is lost, and whoever it made an operator is not on the newest list |
| SessionListing.OldListComesBack | src/libserver/session.cpp:611-705 | if another operator makes somebody an operator after the upload of a list, the successful reset brings the old list back |
| SessionListing.RelistedJoins | src/libserver/session.cpp:201-202 | a client that comes back under a listed id without the flag is on the newest list |
| SessionListing.DeprivedInReset | src/libserver/session.cpp:457-477 | if the admin interface deprives the only operator in the middle of its reset, somebody else is appointed and the newest list is empty |
| SessionSenders.Speaks | src/libserver/client.cpp:339-350 | a plain message is logged under the id of the client it came from, whatever id it says; only the host's upload is logged as it came; nothing is logged exactly if the sender is on hold, the filter drops it or the log is full |
| SessionSenders.OwnName | src/libserver/client.cpp:322-350 | lists included, what the log has from clients grows only by messages under the sender's id; what has to wait is put under that id too, behind the rest of its queue |
| SessionSenders.NobodySpeaksFor | src/libserver/client.cpp:339-341 | over every run, held messages and resets included: as long as a client says nothing and nobody uploads anything under its id, the log has nothing under its id |
| SessionSenders.StartIff | src/libserver/session.cpp:734-770 | Initialization ends exactly if the init user, as an operator, completes or cancels its upload |
| SessionSenders.ResetBeginsIff | src/libserver/session.cpp:772-786 | a reset begins exactly with the request of an operator, who becomes the init user, with an empty buffer and nothing else changed |
| SessionSenders.ResetEndsIff | src/libserver/session.cpp:225-271 | a reset ends exactly if the resetter completes or cancels it, or is no longer there (unless the session is shut down) |
| SessionSenders.ReplacedIff | src/libserver/session.cpp:104-136 | the log is replaced exactly if the resetter completes an upload that is not empty and fits |
| SessionEffects.KickIff | src/libserver/opcommands.cpp:155-194 | a kick removes exactly its target, and that exactly if the sender is an operator or deputy and the target is not protected from it |
| SessionEffects.MuteIff | src/libserver/opcommands.cpp:246-265 | an operator's mute sets the flag of exactly the client it names; anybody else's does nothing |
| SessionEffects.GainOpIff | src/libserver/opcommands.cpp:115-131 | the right opword makes exactly the sender one more operator; otherwise nothing happens |
| SessionEffects.AdminRevokes | src/libserver/session.cpp:463-478 | taking operator status takes it from exactly the client named, unless that is a moderator; one that was resetting is removed instead |
| SessionEffects.OwnersTakeEffect | src/libserver/session.cpp:634-640 | an operator's list makes operators of exactly those it names, the sender and the moderators, and is logged with exactly the operators; if it drops the resetter, that client is removed and the reset ends |
| SessionEffects.TrustTakesEffect | src/libserver/session.cpp:480-505 | an operator's list decides who is trusted and nothing else, and is logged with exactly the trusted users; anybody else's does nothing |
| SessionEffects.ImageBegins | src/libserver/session.cpp:74-95 | a reset image begins with the join messages of the clients as they came, followed by a list of exactly the operators |
| SessionEffects.ImageTrusted | src/libserver/session.cpp:74-95 | and it names exactly the trusted users, unless there are none |
| SessionEffects.OperatorRemembered | src/libserver/session.cpp:422-461 | when the flag of a client with an account changes, the account is remembered as an operator's exactly if the client has it now; of several clients with one account the last on the list decides |
| SessionEffects.OthersRemembered | src/libserver/session.cpp:422-461 | an account none of whose clients changes is remembered as before |
| SessionEffects.TrustRemembered | src/libserver/session.cpp:480-505 | the same for trusted accounts |
| SessionEffects.FirstAnswerIff | src/libserver/thinsession.cpp:115-146 | the first operator to answer the query is told to reset, and nobody else |
| SessionEffects.ResetRearms | src/libserver/thinsession.cpp:148-156 | after a successful reset the query is open again, and sent at once if the new log wants another reset |
| SessionEffects.SettingsTakeEffect | src/libserver/session.cpp:333-420 | an operator's settings take effect, the threshold within nine tenths of the limit, the others stay, and the log has the settings as they then are; anybody else's do nothing |
| SessionEffects.LastLeaves | src/libserver/session.cpp:255-262 | a session that the last user leaves is open again |
| SessionEffects.JoinTakesEffect | src/libserver/session.cpp:169-223 | a newcomer is an operator, and trusted, exactly if it comes so or its account is remembered for it (or it is the first and nobody else can be an operator); it is on hold exactly if it is not the host of a session that initializes; nobody else's flags change, except that the first client is appointed if there is no operator and no other way to become one |
| SessionEffects.AppointsIff | src/libserver/session.cpp:830-848 | exactly the first client is appointed, and that exactly if there is no operator, opword or remembered operator |
| SessionEffects.ShutdownIff | src/libserver/session.cpp:788-807 | no event but a moderator's kill-session shuts the session down, and that one leaves it in Shutdown without clients (what is held until the session starts is the one exception) |
| Session.Session.constructor | src/libserver/session.cpp:44-62 | over a history in which nobody is left behind, the new session is an initial one of the model and satisfies the invariant |
| Session.Session.GetClientById | src/libserver/session.cpp:273-280 | the search finds the first client with the id |
| Session.Session.ServerSideStateMessages | src/libserver/session.cpp:74-95 | the loop builds the joins, the operator list and the trusted list |
| Session.Session.UpdateOwnership | src/libserver/session.cpp:422-461 | the loop sets the flags and remembered accounts and kicks a resetter that lost its flag, as in the model |
| Session.Session.ChangeOpStatus | src/libserver/session.cpp:463-478 | one operator more or less, as in the model |
| Session.Session.EnsureOperatorExists | src/libserver/session.cpp:830-848 | the first client becomes operator exactly if there is none and no other way to become one |
| Session.Session.UpdateTrustedUsers | src/libserver/session.cpp:480-505 | the loop sets the flags and remembered accounts, as in the model |
| Session.Session.RemoveUser | src/libserver/session.cpp:225-262 | removal, cancelled reset, leave message, operator and reopening, as in the model; the recursion through the kick ends |
| Session.Session.SetHoldUnlocked | src/libserver/client.cpp:395-403 | the held messages of a client in order, as long as it is connected: the release that StartGrows and HeldDelivered are about |
| Session.Session.StartSession | src/libserver/session.cpp:97-154 | all clients of the list are released before the state changes, as in the model |
| Session.Session.ReceiveMessage | src/libserver/client.cpp:322-350 | a received message is stamped, held or handled: the step that Speaks and OwnName are about, keeping the invariant |
| Session.Session.Leave | src/libserver/session.cpp:225-262 | one step of the model, keeping the invariant |
| Session.Session.JoinUser | src/libserver/session.cpp:169-223 | one step of the model, keeping the invariant |
| ResetProtocol.UploadPhase | src/libserver/session.cpp:687-705 | however the others interleave and whatever the resetter sends, as long as the upload goes on the buffer is what the server accepted since the last init-begin, in order |
| ResetProtocol.OwnUpload | src/libserver/session.cpp:611-705 | one message of the resetter: the upload goes on exactly if what the server accepts of it fits the limit, and then the buffer has exactly that |
| ResetProtocol.NotCutOff | src/libserver/session.cpp:687-705 | a snapshot within the limit is never cut off by the server |
| ResetProtocol.NeverCutOff | src/libserver/session.cpp:687-732 | leftovers, init-begin and snapshot within the limit do not end the upload; if the others do not, nothing does |
| ResetProtocol.BeginDrops | src/libserver/session.cpp:707-732 | init-begin empties the buffer |
| ResetProtocol.OthersLeave | src/libserver/session.cpp:611-705 | nothing another client does changes the buffer while the upload goes on |
| ResetProtocol.SnapshotArrives | src/libserver/session.cpp:687-732 | whatever was in flight before init-begin, what is assembled is what the filter keeps of the snapshot and nothing else |
| ResetProtocol.TwoPartyReset | src/libserver/session.cpp:97-154 | for every interleaving and whatever the resetter sends, as long as nothing ends the upload: init-complete installs the server's messages and what was accepted since the last init-begin (and the settings) if these fit and something was accepted; otherwise the log stays |
| ResetProtocol.SnapshotInstalled | src/libserver/session.cpp:97-154 | after any leftovers that do not end the upload, init-begin and a snapshot, what is installed is what the filter keeps of the snapshot; it is the snapshot itself if and only if no message of it is filtered |
| ResetProtocol.HandshakeInstalls | src/libserver/session.cpp:97-154 | the same from conditions both parties can see: leftovers and snapshot each within the limit and without lists, and the others neither remove nor mute the resetter |
| ResetProtocol.MutedPinLost | src/libserver/session.cpp:646-648 | every undisturbed reset by a muted operator loses the pinned message, which the snapshot has as chat |
| ResetProtocol.UninterruptedUpload | src/libserver/session.cpp:687-751 | for all images within the limit, the upload that nobody interrupts meets the conditions of the two-party reset |
| ResetProtocol.ReplyArrives | src/libclient/document.cpp:708-754 | a client that knows the limit and uploads is never cut off, and what arrives is what the filter keeps of its snapshot |
| ResetProtocol.FullSizeSnapshotRefused | src/libclient/document.cpp:729-743 | the client's size check leaves no room for the server's messages: a snapshot that uses up the limit passes it and is refused |
| ResetProtocol.Document.SnapshotNeeded | src/libclient/document.cpp:708-754 | with a canvas, uploads init-begin, the image and init-complete exactly if the image fits and was prepared or the canvas is not blank, and cancels otherwise; without a canvas it cancels |
| ResetProtocol.UploadsIff | src/libclient/document.cpp:708-754 | the client's reply is an upload exactly then |
| IdQueue.ToBackOrders | src/libserver/idqueue.cpp:41-54 | using an id keeps the queue ordered by last use |
| IdQueue.ToBackPermutes | src/libserver/idqueue.cpp:41-54 | the queue keeps every id from 1 to 254 exactly once |
| IdQueue.EveryoneElseSince | src/libserver/idqueue.cpp:41-54 | an id comes to the front again only after every other id was used since |
| IdQueue.FreeIdExists | src/libserver/session.cpp:156-167 | fewer than 254 connected clients leave an id free |
| IdQueue.FullSession | src/libserver/session.cpp:156-167 | with all of 1 to 254 connected no id is free |
| IdQueue.IdQueue.constructor | src/libserver/idqueue.cpp:23-28 | the queue starts as 1 to 254 in order |
| IdQueue.IdQueue.NextId | src/libserver/idqueue.cpp:41-46 | gives the least recently used id and moves it to the back |
| IdQueue.IdQueue.ReserveId | src/libserver/idqueue.cpp:48-54 | the id becomes the most recently used |
| IdQueue.IdQueue.SetIdForName | src/libserver/idqueue.cpp:30-34 | the name is remembered, and an id from 1 to 254 becomes the most recently used |
| IdQueue.IdQueue.AssignId | src/libserver/session.cpp:156-167 | a returning user gets the remembered id if nobody has it; otherwise the bounded search ends in time with the first free id of the queue, if there is one, and everything up to it goes to the back in order; if there is none it gives up with an id in use |
| IdQueue.FirstFreeIsOldest | src/libserver/session.cpp:156-167 | the id taken is the least recently used of all free ones |
| SessionBan.AddKeeps | src/libserver/sessionban.cpp:38-63 | adding keeps ids and identities unique and local addresses off the list, and bans exactly one identity more, with the given fields, unless refused |
| SessionBan.RemoveKeeps | src/libserver/sessionban.cpp:65-76 | removing keeps them unique and lifts the ban of exactly the identity of that entry |
| SessionBan.SessionBanList.IsBanned | src/libserver/sessionban.cpp:78-105 | accounts by their id, guests by their address in IPv6 form |
| SessionBan.SessionBanList.AddBan | src/libserver/sessionban.cpp:38-63 | adds or refuses as specified and returns the id, or zero |
| SessionBan.SessionBanList.RemoveBan | src/libserver/sessionban.cpp:65-76 | removes the entry with the id and gives its name, or nothing if there is none |
| Announcements.GatherIs | src/libserver/announcements.cpp:176-211 | one pass collects exactly the listings due at the server of the first expired one, and knows whether another server has one |
| Announcements.PassEnds | src/libserver/announcements.cpp:176-274 | each pass lowers the number of expired listings, so the recursion ends |
| Announcements.RequestsCover | src/libserver/announcements.cpp:176-274 | every expired listing, and every later one of its server, is in a request; a request names one server, and no two the same |
| Announcements.OnceEach | src/libserver/announcements.cpp:176-274 | no listing is in two requests or twice in one |
| Announcements.NoneExpired | src/libserver/announcements.cpp:176-274 | after a refresh no timer has expired |
| Announcements.Announcements.AnnounceSession | src/libserver/announcements.cpp:38-68 | nobody is listed twice at a server |
| Announcements.Announcements.GatherUpdates | src/libserver/announcements.cpp:176-211 | the loop computes the pass and restarts the timers of the collected listings |
| Announcements.Announcements.RefreshListings | src/libserver/announcements.cpp:176-274 | the recursion ends and sends requests that cover the due listings |
| JournalText.PercentRoundTrip | src/libserver/filedhistory.cpp:638-649 | every byte string survives the percent-encoding |
| JournalText.EncodedNoSpace | src/libserver/filedhistory.cpp:638-649 | an encoded field contains no spaces or line breaks |
| Journal.LoadOnwards | src/libserver/filedhistory.cpp:173-300 | loading a longer journal goes on where the shorter one ended |
| Journal.ExecEntry | src/libserver/filedhistory.cpp:181-194 | a line with trimmed parameters is read as it was meant |
| Journal.BanSurvives | src/libserver/filedhistory.cpp:248-259 | a ban read back is the same entry with the same id and counter |
| Journal.FlagsSurvive | src/libserver/filedhistory.cpp:511-529 | every set of flags survives |
| Journal.UserSurvives | src/libserver/filedhistory.cpp:531-541 | a user's name and id survive |
| Journal.UpdateSurvives | src/libserver/filedhistory.cpp:173-300 | loading a journal with one more clean update gives the updated metadata |
| Journal.JournalReplay | src/libserver/filedhistory.cpp:173-300 | for every sequence of clean updates, loading reconstructs bans and counter, operators, trusted users, flags, limits, title, listings, user ids, file and file count |
| Journal.TitleSurvivesIff | src/libserver/filedhistory.cpp:502-509 | a new title is restored exactly if it has no line break and no space at its ends |
| Journal.TitleActsAsEntry | src/libserver/session.cpp:359-361 | what follows a line break in a title is read as a journal entry of its own, whatever it is |
| Journal.TitleMakesOperator | src/libserver/filedhistory.cpp:502-509 | for instance a title that enters an account into the remembered operators |
| Journal.BanSurvivesIff | src/libserver/filedhistory.cpp:638-649 | a ban is restored exactly if its author is named, which the callers guarantee |
| Journal.LoadJournal | src/libserver/filedhistory.cpp:173-300 | the reading loop computes the specified metadata |
| Journal.SessionJournal.InitRecording | src/libserver/filedhistory.cpp:141-160 | keeps what a restart would load equal to what is in memory, for every clean file name |
| Journal.SessionJournal.SetMaxUsers | src/libserver/filedhistory.cpp:482-490 | keeps what a restart would load equal to what is in memory, for every number, bounded to 1 to 254 |
| Journal.SessionJournal.SetAutoResetThreshold | src/libserver/filedhistory.cpp:492-500 | keeps what a restart would load equal to what is in memory, for every threshold; the threshold is the one given, or nine tenths of the limit if that is less |
| Journal.SessionJournal.SetTitle | src/libserver/filedhistory.cpp:502-509 | keeps what a restart would load equal to what is in memory, for every clean title; the title is the one given |
| Journal.SessionJournal.SetFlags | src/libserver/filedhistory.cpp:511-529 | keeps what a restart would load equal to what is in memory, for all flags; the flags are the ones given |
| Journal.SessionJournal.JoinUser | src/libserver/filedhistory.cpp:531-541 | keeps what a restart would load equal to what is in memory, for every id and name; the name now has the id |
| Journal.SessionJournal.SetAuthenticatedOperator | src/libserver/filedhistory.cpp:681-699 | keeps what a restart would load equal to what is in memory, for every clean account; exactly that account changes |
| Journal.SessionJournal.AddBan | src/libserver/filedhistory.cpp:638-649 | keeps what a restart would load equal to what is in memory, for every ban with an author; the entry is the newest, unless refused |
| Journal.SessionJournal.RemoveBan | src/libserver/filedhistory.cpp:651-655 | keeps what a restart would load equal to what is in memory, for every id |
| Journal.SessionJournal.AddAnnouncement | src/libserver/filedhistory.cpp:663-670 | keeps what a restart would load equal to what is in memory, for every clean address; exactly that listing is added |
| Journal.SessionJournal.RemoveAnnouncement | src/libserver/filedhistory.cpp:672-679 | keeps what a restart would load equal to what is in memory, for every clean address; exactly that listing is removed |
| Journal.SessionJournal.SetAuthenticatedTrust | src/libserver/filedhistory.cpp:701-719 | keeps what a restart would load equal to what is in memory, for every clean account; exactly that account changes |

## Left out

- User interface, painting, the thick server, tools and scripts.
- Sockets, TLS, timers and message queues: clients are nondeterministic steps over first-in-first-out channels.
- Login, server configuration, databases, abuse reports and the JSON admin interface, except for granting and revoking operator status.
- What is sent directly to clients (notices, chat that bypasses the log, private chat, ban, mute and listing broadcasts); only its absence from the log is modelled.
- File errors, archiving and renaming of recordings, recording headers; file reads and writes succeed.
- The settings broadcast is a plain listing instead of JSON, so its length differs; settings that nothing here depends on are one opaque field.
- Retroactive bans, and finding users by name, in kick and mute commands.
- After a shutdown, the last changes that the disconnections make to the flags of clients and to the remembered accounts of the deleted session.
- Removing listings, and what list servers answer.
- Sessions in which two clients share an id.
- Passwords, alias and founder in the journal; addresses are written there in a plain numeric notation; percent-decoding of text that was not produced by the encoder.
