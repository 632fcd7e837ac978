# Verification of the LAN chat

A model of a chat for one local network, and proofs about it. One server decides the order of
every message; each person's client daemon keeps a cache that must end up in that order across
dropped connections, resends, crashes and restarts. Beside the conversation, the server relays
files between two people.

`dafny verify dfyconfig.toml` checks everything.

## How it is laid out

| file | what it is |
|---|---|
| `names.dfy`, `messages.dfy` | conversation names, the three-key order, insertion into a sorted list |
| `storemodel.dfy` | the store as a table of messages, its operations and the store-wide invariant |
| `journal.dfy` | the history files, reading them back, crashes between lines |
| `bytelog.dfy`, `torn.dfy` | a history file as bytes that may be cut anywhere; what a process that dies in mid-line loses |
| `chatstore.dfy` | the store as a class: lists kept by insertion, a set of ids, counters, `loadLog` as a loop |
| `servermodel.dfy`, `clientmodel.dfy` | the handlers of the server and of the client as functions on their state |
| `replication.dfy`, `guarantees.dfy` | one server, any number of clients and connections as a transition system; what every run keeps |
| `membership.dfy`, `marks.dfy`, `texts.dfy` | who may write where, and what joining and leaving come to; whose message a copy is and whether it is read; what it says and where it is filed |
| `cursor.dfy`, `resume.dfy` | queues of frames, and the cursor that never claims more than the client holds |
| `backlog.dfy`, `overlong.dfy`, `chatserver.dfy` | what a resume is sent, and runs in which that leaves something out; the server as a class, with its loops and its in-place sort |
| `handoff.dfy` | enrolment racing against senders, cut at the lock boundaries |
| `daemon.dfy`, `noloss.dfy`, `outlives.dfy` | the client daemon as a class; nothing sent is lost, with lines that land late and crashes that tear them; exactly what outlives a crash |
| `relaymodel.dfy`, `relaytrace.dfy`, `relay.dfy` | the relay's table, the grammar of what it says, and the relay as a class |
| `transfermodel.dfy`, `arrival.dfy`, `calloff.dfy`, `files.dfy` | sender, relay and receiver as one transition system, runs of it, what calling off leads to and what done leaves; the client's half as classes |
| `slices.dfy` | what a receiver makes of any slices at all |
| `relaysteps.dfy` | the relay's handlers are, for each transfer, the relay in the middle of that system |
| `wire.dfy` | frames on a byte stream in arbitrary pieces |

A class is tied to the functions by an `Abs()` function: each method's postcondition equates the
new abstract value with the function applied to the old one, and the lemmas are about the
functions. A sequence number is called `num` here, because `seq` is a Dafny keyword.

## What atomicity is assumed

In `replication.dfy`, `guarantees.dfy` and `resume.dfy` one handler of the server, and one frame
applied by a client, is one step. The program holds no lock across a handler
(`chatserver/handle.go:85-100`), so `handoff.dfy` takes the sender's and the enrolling side's
steps apart, and lets the client read and the connection be cut in between. There the no-gap
property still holds, for every interleaving; how often a message is queued, what a cut loses and
which number a sender announces are each proved with their exact conditions, and
`RacingResendsTakeTwoNumbers`, `QueuedThreeTimes`, `CutBetweenLosesOlder` and
`CutWhileFilingLosesOlder` are runs in which they come out badly.

In `relaymodel.dfy` and `relaytrace.dfy` a handler of the relay is one step too, although
`chatserver/relay.go` lets go of its lock before it sends: what two handlers send to one person
at the same moment may arrive the other way round. An offer also looks for connections of the person
it is for before it takes the lock (`chatserver/relay.go:63-91`): if the last of them goes in between,
the record is made with an end that is not connected. That both ends of a record are connected, in
`RelayModel.AlwaysRelayOk`, rests on the look and the record being one step.

In `noloss.dfy` a change to memory and the line that records it are separate steps, and in
`bytelog.dfy` a write may be cut after any byte.

## Where the code and what is written about it differ

The model follows the code.

* An over-long delta is answered with the window, but the welcome that went out before it said
  `reset` false (`chatserver/server.go:476-484`); `docs/protocol.md:184-193` says it is told
  `reset` true. What the window leaves out is the same either way: the client ends with the
  window and the cursor of the synced behind it. `Backlog.OverlongBacklogIsCompleteExactlyWhen`
  says when that loses something, and `Overlong.WindowLeavesOut` is a run in which it does.
* A half-written last line is said to cost that one message (`chat/store.go:828-833`). The next
  line appended is glued to it and cannot be read either; and a line that has lost only its
  newline is read back at the next start and destroyed by the next append:
  `ByteLog.CutTakesTheNextMessage`, `ByteLog.LostNewlineIsLostLine`,
  `Outlives.OutlivesACrashExactlyWhen`, `Outlives.SentAndLost`. A client that has saved its cursor past
  such a message does not ask for it again: `Torn.RecoveredExactlyWhen`, `Torn.NeverAskedForAgain`.
* The counter is said to survive a restart (`docs/protocol.md:262-264`). A server that dies in
  mid-line and is started twice more can give the same number to two messages:
  `Torn.NumberReusedExactlyWhen`, `Torn.SameNumberTwice`.
* The unread count is said to be how many unread messages a conversation holds
  (`chat/store.go:615`). One read line makes the whole file count as read when it is read back, so
  what arrived after it does too: `Journal.UnreadSurvivesExactlyWhen`, `Journal.UnreadLost`.
* "At most 8 transfers open per person" (`docs/protocol.md:376`) bounds who offers, not who is
  offered: `RelayModel.AnyNumberOpenToOne`, `RelayModel.CapHoldsExactlyWhen`.
* "A duplicate costs nothing" during enrolment (`chatserver/server.go:470-475`) is right about
  duplicates, but a live message may be queued ahead of older backlog, and a number may be given
  out and not yet filed; a client cut off in between does not ask for the older message again:
  `Handoff.CutLosesExactlyWhen`, `Handoff.CutBetweenLosesOlder`,
  `Handoff.CutWhileFilingLosesOlder`.
* A resend is said to be sequenced once (`chatserver/handle.go:82-84`). That is so when handlers
  do not overlap (`Guarantees.ExactlyOnce`). Two connections resending one id at once may be told
  two numbers, of which `Handoff.AnnouncedIsStoredExactlyWhen` says which one is right, and the
  message may then be queued more than twice and under the wrong number:
  `Handoff.AtMostTwiceExactlyWhen`, `Handoff.QueuedThreeTimes`.
* A done frame finishes a transfer in whatever state it is, so a receiver can call a transfer off
  and be told afterwards that it finished, with nothing on disk: `Arrival.CalledOffAndFinished`. Over
  every run that happens exactly to those called off before:
  `CallOff.FinishedWithNothingExactlyWhen`.
* A stream cut between a header and its body reads as a clean end: `Wire.CutIsCleanExactlyWhen`.

## Model

| member | source | states |
|---|---|---|
| Names.DirectKeySymmetric | chat/types.go:41-46 | The key of a one-to-one conversation does not depend on which end asks |
| Names.DirectPairInvertsDirectKey | chat/types.go:52-62 | DirectPair recovers the two ends exactly when the lower id is not empty and has no `+` |
| Names.DirectKeyInjective | chat/types.go:41-62 | For ids that are not empty and have no `+`, two keys are equal exactly when they are for the same two people |
| Names.CanonRoomIdempotent | chat/types.go:75-78 | Folding a room name twice is folding it once |
| Names.FoldedExactlyWhen | chat/types.go:73-78 | Folding leaves a name as it is exactly when it has no capital and no space at either end, and makes every name such a one |
| Names.OuterSpaceFolds | chat/types.go:73-78 | Outer white space makes no difference to a room name |
| Names.CaseFolds | chat/types.go:73-78 | Names that differ only in case fold alike |
| Names.StrLessExactlyWhen | chat/store.go:435-446 | Of two ids the lower is the one that ends inside the other or has the lower character at the first place they differ |
| Messages.LessTotal | chat/store.go:435-446 | The display order is strict, and total on different ids |
| Messages.ListedInOrder | chat/store.go:435-446 | In a sorted list numbered messages stand above what has no number, by number; then by clock; then by id |
| Messages.SortedUnique | chat/store.go:376-382 | Two strictly sorted lists of the same messages are the same list |
| Messages.InsertOrdered | chat/store.go:420-429 | Appending, or searching by halves and opening a gap, puts a message exactly where a walk from the front would |
| StoreModel.MoveKeepsListing | chat/store.go:563-595 | Taking a confirmed entry out and putting it back by its number keeps the list sorted and loses or doubles nothing |
| StoreModel.RunKeepsStoreOk | chat/store.go:383-412 | Over every run: one message per id, filed under a conversation, numbered at most the counter; each unread count is the number of countable messages |
| StoreModel.MarkReadKeepsStoreOk | chat/store.go:623-636 | Reading returns the count it clears, leaves nothing unread there and touches no other conversation |
| StoreModel.ArrivalOrderIrrelevant | chat/store.go:376-429 | Any two arrival orders of the same messages, with any repetitions, end in the same table, counter and lists |
| StoreModel.OptimisticCopyConverges | chat/store.go:559-595 | Filing without a number, anything else arriving, then confirming ends where filing the numbered, delivered message would have |
| ChatStores.ChatStore.NextSeq | chat/store.go:352-357 | The next number is one above the last, and the store is otherwise as it was |
| ChatStores.ChatStore.Append | chat/store.go:383-412 | Refuses, ignores or files exactly as the abstract store does; lists stay the sorted listings of the table and `seen` its ids |
| ChatStores.ChatStore.Confirm | chat/store.go:563-595 | Gives the number and the delivered state in place, moves the entry, raises the counter and writes one line |
| ChatStores.ChatStore.SetState | chat/store.go:476-499 | Changes one state where it is and writes one line |
| ChatStores.ChatStore.MarkRead | chat/store.go:623-636 | Marks one conversation, clears its count and writes a read line only if there was something unread |
| ChatStores.ChatStore.Messages | chat/store.go:450-458 | The tail of the one sorted listing of the conversation |
| ChatStores.ChatStore.Message | chat/store.go:461-472 | Finds exactly the stored message with an id |
| ChatStores.ChatStore.Queued | chat/store.go:503-523 | Exactly our messages that are queued or sending, of one conversation or of all, in display order |
| ChatStores.ChatStore.Since | chat/store.go:529-545 | The last of exactly the messages numbered above a cursor, in order, up to a limit |
| ChatStores.ChatStore.Convs | chat/store.go:548-557 | Exactly the conversations that hold a message, in order of name |
| ChatStores.ChatStore.LoadLog | chat/store.go:809-897 | The reading loop, with its conditional sort, folds a file into exactly what its lines amount to, lines that do not parse and amendments before their message included |
| ChatStores.ChatStore.LoadHistory | chat/store.go:789-807 | Reading every such file in any directory order gives the abstract reload |
| Journal.ExecKeepsJournal | chat/store.go:775-787 | After every operation the files, read back, agree with memory up to read marks and "sending" |
| Journal.CrashPrefixReplays | chat/store.go:809-886 | A file cut after any number of whole lines gives back what memory held after some prefix of the operations |
| Journal.CrashPrefixLists | chat/store.go:809-886 | And the list shown is the list that was shown then |
| Journal.RestartBringsEverythingBack | chat/store.go:789-886 | A restart brings back every message, with its number, and its state up to "sending" |
| Marks.RestartSettles | chat/store.go:866-883 | What was on its way is queued again, what a read line covers is read, and nothing else about a message changes |
| Journal.MemoryFollowsDisk | chat/store.go:775-897 | Over any run of operations and crashes that cut any files, memory is what the files say |
| Journal.EarlyAmendmentsAreHonoured | chat/store.go:845-878 | A file reads the same wherever its amendments stand among its message lines |
| ByteLog.BytesRefine | chat/store.go:775-787 | Over any writes, each cut after any byte, the lines and the ending that the model keeps are those of the bytes, and the scanner finds what the model says |
| ByteLog.CutTakesTheNextMessage | chat/store.go:809-834 | After a cut at any byte the next message written can be read back exactly when the cut fell between two lines; otherwise it and what was left of the cut line are one line that does not parse |
| ByteLog.LostNewlineIsLostLine | chat/store.go:775-834 | A line that lost only its newline is read back until the next write, and then is not |
| Torn.NumberReusedExactlyWhen | chat/store.go:825-843 | Of any number of messages filed before a restart, one's number is still to be given out exactly when neither it nor any later one went into a file that ended in a newline, and its message is there exactly when it did so itself |
| Torn.SameNumberTwice | chatserver/handle.go:91-96 | A server that dies in its first line gives number 1 to two messages |
| Journal.UnreadSurvivesExactlyWhen | chat/store.go:880-895 | The unread count survives a restart exactly when there is no read line in the file or nothing is unread |
| Journal.UnreadLost | chat/store.go:866-895 | A run in which a message that nobody has read counts as read after a restart |
| ServerModel.VisibleIsNamed | chatserver/server.go:526-556 | The window and the relay let through the same conversations |
| ServerModel.RecipientsAreWhoSees | chatserver/handle.go:105-128 | A routed message goes to exactly the enrolled people who may see the conversation it is filed under, the sender among them |
| Membership.RoomRouteExactlyWhen | chatserver/handle.go:105-117 | A room takes a message exactly when its folded name is not empty and the sender would be shown it; it goes to all who would be, and otherwise the refusal says not in the room |
| Membership.DirectRouteExactlyWhen | chatserver/handle.go:118-128 | Any other conversation takes one exactly when it is with an enrolled person other than the sender; it goes to the two of them, and the refusal says no such person exactly when a well-formed name is nobody's |
| Membership.FiledExactlyWhen | chatserver/handle.go:67-101 | A message with a new id is filed exactly when the id is not empty, the body is within bounds and the sender may write there |
| Membership.RefusedBecause | chatserver/handle.go:67-128 | Otherwise the connection it came on alone hears of it, with the code for the first reason that applies, and nothing else changes |
| Membership.RoomHeardByBoth | chatserver/handle.go:97-145 | For any two people and any room there is a run in which one writes there and both have it on their connections |
| ServerModel.ReplyRoutesBack | chatserver/server.go:538-556 | The name each end is given for a one-to-one conversation routes back to the same key and the same two people |
| ServerModel.ResendIsFree | chatserver/handle.go:82-90 | A resend stores and numbers nothing, tells nobody else and is answered with the original number |
| ServerModel.CanonRoomsAre | chat/paths.go:159-174 | The rooms kept are exactly the folded names that are neither empty nor too long, each once |
| ServerModel.CanonRoomsInOrder | chat/paths.go:159-174 | They stand in the order of their first spellings: more names never move what is there |
| ServerModel.CanonRoomsIdempotent | chat/paths.go:159-174 | Folding a list twice is folding it once |
| Membership.FoldedRoomsExactlyWhen | chat/paths.go:159-174 | A list of rooms is left as it is exactly when every name in it is folded and neither empty nor too long, and none is there twice |
| Membership.AlwaysFolded | chatserver/handle.go:175-203 | In every reachable state every person's list is one of those |
| ChatServers.ChatServer.FanOut | chatserver/handle.go:133-145 | Every connection of every entitled recipient gets the message once, under that recipient's name |
| ChatServers.ChatServer.OnMessage | chatserver/handle.go:67-101 | Parses, routes, deduplicates, numbers, files, fans out and acknowledges as the abstract handler does |
| ChatServers.ChatServer.Register | chatserver/server.go:361-366 | The new connection is added to its person's list and gets an empty queue |
| ChatServers.ChatServer.Unregister | chatserver/server.go:368-383 | Exactly that connection goes, and the lists stay the owners turned round |
| ChatServers.ChatServer.VisibleSince | chatserver/server.go:500-509 | Exactly the visible messages above the cursor, strictly sorted |
| ChatServers.ChatServer.RecentWindow | chatserver/server.go:513-524 | Exactly the last 200 of every visible conversation, strictly sorted |
| ChatServers.SortBySeq | chatserver/server.go:590-599 | In place: ascending by number, and a permutation |
| ChatServers.ChatServer.Enrol | chatserver/server.go:296-359 | Rooms recorded, reset decided, connection registered, and the owed backlog queued before synced |
| ChatServers.ChatServer.OnJoin | chatserver/handle.go:175-191 | Joins, sends the tail of the room's one listing and then synced |
| ChatServers.ChatServer.OnLeave | chatserver/handle.go:193-203 | The list that is left, kept as the abstract handler keeps it |
| Membership.JoinsExactly | chatserver/handle.go:175-185 | Joining puts the folded name at the end of the person's list, unless it is there, and changes nobody else's; what is no name for a room is refused |
| Membership.LeavesExactly | chatserver/handle.go:193-203 | Leaving takes exactly the folded name from the person's list, the rest stays in order, and nobody else's list, no message and no queue is touched |
| Membership.JoinThenLeave | chatserver/handle.go:175-203 | Joining a new room and leaving it gives the old list back |
| Membership.SilentAfterLeaving | chatserver/handle.go:133-203 | Over whole runs, from the moment somebody leaves a room until they join it or enrol in it again, no step queues anything filed there on any connection of theirs |
| Membership.JoinerIsShown | chatserver/handle.go:175-191 | A joiner is sent the last 200 of the room and then the counter, and from then on whatever is filed there |
| Membership.JoinerHolds | chatserver/handle.go:186-191 | A joiner who reads what it is sent holds every one of those messages, whatever its cache held before |
| Backlog.ByNumberIsSorted | chatserver/server.go:590-599 | On what the server has numbered, ascending numbers is the display order |
| Backlog.TailCovers | chatserver/server.go:513-524 | A tail holds everything above a cursor exactly when there are no more than 200 of them |
| Backlog.OverlongBacklogIsCompleteExactlyWhen | chatserver/server.go:476-487 | Past 2000 a client not told to reset gets all it missed exactly when no conversation it sees has more than 200 messages above its cursor |
| Backlog.AheadIsSentTheWindow | chatserver/server.go:461-487 | A cursor ahead of the counter has nothing above it, and its client is sent the window |
| Backlog.ResetIsFreshExactlyWhen | chatserver/server.go:461-487 | A client told to start again is sent what a new client would be exactly when that is more than 2000 messages or no conversation it sees has more than 200; otherwise it is sent less |
| Overlong.WindowLeavesOut | chatserver/server.go:476-487 | For any number over 2000 there is a run in which somebody away misses that many messages of one conversation and is sent the last 200 and the number of the newest |
| Replication.AlwaysInv | chatserver/handle.go:67-203 | Over every run of composing, delivering, enrolling, reading, dropping, joining, leaving and restarting: server, queues, caches and files stay consistent |
| Replication.ApplyKeepsClient | chatclientd/link.go:237-320 | A frame of the server leaves the cache right, the message held with its number, and the cursor exactly where the frame says |
| Marks.OwnFrameLands | chatclientd/link.go:285-310 | Our own message, written on this machine or another, ends up numbered, delivered, ours and read, and no other message and no unread count changes |
| Marks.OtherFrameLands | chatclientd/link.go:285-310 | Somebody else's is filed once, as theirs and unread, and only its conversation counts one more |
| Marks.NumberLands | chatclientd/link.go:242-246 | A number that comes back gives our copy its place and the delivered state, changes no other message and moves the cursor up to it |
| Marks.SyncedLands | chatclientd/link.go:256-258 | Synced leaves the cache alone and puts the cursor it leads to on disk |
| Marks.OwnExactlyWhen | chatclientd/link.go:299-310 | In every reachable state a copy of a filed message is marked as ours exactly when it is from us, and then is read and never counted |
| Marks.UnreadIsOthers | chat/store.go:615-636 | In every reachable state a conversation's unread count is the number of unread messages in it from others |
| Texts.EverybodyReadsTheSame | chatserver/handle.go:67-145 | In every reachable state a copy of a filed message, whoever has it and however it came there, has the sender, body, clock and transfer that the server has, and stands in the conversation the server files it under |
| Texts.TextIsForEver | chatserver/handle.go:82-101 | Over whole runs what the server has filed is never lost and never says anything else |
| Guarantees.ExactlyOnce | chatserver/handle.go:82-101 | Over any message frames from any connections, stored messages never change, new ones are numbered after all before, one number each and none skipped |
| Guarantees.NumbersAreForEver | chatserver/handle.go:91-96 | Over whole runs, restarts that lose no line included, a number once given never changes and later messages get higher ones |
| Guarantees.CopiesAgree | chatclientd/link.go:285-310 | In every reachable state a client's copy of a filed message has no number or the server's |
| Guarantees.SameOrderEverywhere | chat/store.go:376-382 | In every reachable state a client lists what the server has numbered in the server's order, so two clients with the same ones list them alike |
| Guarantees.OnlyTheEntitledAreTold | chatserver/handle.go:133-191 | Over whole runs, every message queued on a connection is one its owner may see at that moment, by fan-out, backlog or join |
| Resume.CursorIsComplete | chatclientd/link.go:360-369 | With fixed rooms and deltas, over any drops and restarts, what is held and queued covers everything visible up to the cursor and up to each queued number |
| Resume.HoldsWhatTheCursorClaims | chatclientd/link.go:155-178 | So a client holds, with its number, every visible message numbered at or below its cursor |
| Resume.SavedCursorIsSafe | chatclientd/cursor.go:31-65 | And one that comes back with only its files, and asks for what follows the cursor it saved, holds or is sent every message it may see |
| Resume.AtRestHoldsEverything | chatserver/server.go:461-475 | And a connected client that has read all there is holds every message it may see, with its number |
| Handoff.HistoryIsBacklog | chatserver/server.go:461-509 | What the handler reads for a person, whatever it is interleaved with, is the backlog of a server that holds what has been filed at that moment |
| Handoff.AlwaysInv | chatserver/server.go:322-357 | For every interleaving, cuts included: numbers, authorship, what is owed and how often each message has been queued stay in step |
| Handoff.NoGap | chatserver/server.go:461-497 | For every interleaving, every visible message above the hello cursor is queued: once out of the history if it was in it, and once by each sender of it that queued it |
| Handoff.AtMostTwiceExactlyWhen | chatserver/server.go:470-475 | It is queued at most twice and only under the number it is stored under exactly when no sender but the one that filed it has queued it |
| Handoff.TwiceExactlyWhen | chatserver/server.go:470-475 | Other senders apart, it is queued twice exactly when it was filed before the history was read and its sender looked after the connection was registered; each other sender that queued it adds one |
| Handoff.QueuedThreeTimes | chatserver/handle.go:85-97 | A run in which a message is queued three times, once under a number it is not stored under |
| Handoff.CutLosesExactlyWhen | chatserver/server.go:461-497 | Once a connection is cut, some continuation loses a message for good exactly when a filed one numbered up to the cursor reached has not been read, or a sender holds such a number for one not filed yet |
| Handoff.AnnouncedIsStoredExactlyWhen | chatserver/handle.go:85-100 | A sender announces the stored number exactly when the id was not stored before it filed |
| Handoff.RacingResendsTakeTwoNumbers | chatserver/handle.go:85-92 | A run in which two resends of one id take two numbers |
| Handoff.CutBetweenLosesOlder | chatserver/server.go:470-497 | A run in which a live message is queued ahead of older backlog that a cut then loses |
| Handoff.CutWhileFilingLosesOlder | chatserver/handle.go:85-100 | A run in which nothing filed is lost at the cut and a number given out before it is |
| Daemons.Daemon.Send | chatclientd/daemon.go:258-288 | Refuses exactly when every character is white space or there is no conversation; otherwise the text without the spaces, tabs, returns and newlines at its end, up to the bound, is filed, is waiting, and is written if the connection takes it |
| Daemons.TrimTailCuts | chatclientd/daemon.go:259 | What is cut from the end of a line is only spaces, tabs, returns and newlines, and what is left does not end in one |
| Daemons.OneCut | chatclientd/daemon.go:259 | That leaves one possible body |
| Daemons.BlankExactlyWhen | chatclientd/daemon.go:259-262 | What is left is blank exactly when every character of the text is white space |
| Daemons.Daemon.FlushQueue | chatclientd/daemon.go:293-300 | What is waiting is written in display order up to the first frame refused, and exactly that much is marked sending |
| Daemons.FlushKeepsQueue | chatclientd/daemon.go:290-300 | A flush, whole or cut short, leaves exactly the same messages waiting |
| Daemons.EarliestFirst | chatclientd/daemon.go:290-300 | What waits for a number is offered in the order of the clock it was written at, behind what already has one |
| Daemons.Daemon.SystemMessage | chatclientd/daemon.go:516-529 | A local note is filed at the cursor, delivered and read |
| Daemons.Daemon.Advance | chatclientd/link.go:360-369 | The cursor never goes back and reaches at least the number |
| Daemons.Daemon.OnMessage | chatclientd/link.go:285-320 | Our own message only fixes the place of the copy here; somebody else's is filed |
| Daemons.Daemon.Apply | chatclientd/link.go:237-283 | A frame is folded in as the abstract client does, and synced is followed by the flush |
| Daemons.Daemon.Session | chatclientd/link.go:171-233 | After a session the cursor in memory and on disk is the highest number read in it, counted from 0 after a reset, and every message read is in the cache |
| Daemons.HighestIs | chatclientd/link.go:360-369 | That highest number is one that was read, or where the cursor started, and none read is above it |
| NoLoss.LandingAtOnce | chat/store.go:383-412 | An operation is its change to memory followed by its line |
| NoLoss.BytesLandOrEnd | chat/store.go:775-787 | However many bytes of a line reach its file, the step is one of the runs': nothing, a line that lands, or an end that a crash may leave |
| NoLoss.EndsAreCutWrites | chat/store.go:775-787 | The ends a crash may leave are exactly those of a line on its way, cut after some of its bytes |
| NoLoss.NothingSentIsLost | chatclientd/daemon.go:252-288 | Once Send has returned with its line whole, then whatever lands late or crashes the message is there as typed, and is numbered or still waiting |
| NoLoss.UnnumberedIsOffered | chatclientd/link.go:256-262 | What was kept and has no number is in the queue that goes out after synced |
| Outlives.SentOutlivesACrashExactlyWhen | chat/store.go:825-834 | A message that has landed outlives the next crash, whatever was done in between, exactly when its file ended in a newline when it landed |
| Outlives.OutlivesACrashExactlyWhen | chat/store.go:775-834 | Any message filed, composed or relayed, outlives the next crash exactly when its line landed in a file that ended in a newline or lost no more than its own newline |
| Outlives.SentAndLost | chat/store.go:775-834 | Runs in which a line cut by a crash is followed by a message, typed here or relayed, that the next crash loses |
| Torn.RecoveredExactlyWhen | chatclientd/link.go:155-178 | After a crash a relayed message is there, or in what follows the saved cursor, exactly when its line was whole or the cursor is below its number |
| Torn.NeverAskedForAgain | chatclientd/link.go:155-178 | A run in which neither is so |
| NoLoss.CrashedDirLoadable | chat/store.go:789-834 | Whatever a crash leaves in the files, the loading loop takes |
| NoLoss.Restart | chat/store.go:789-897 | The restart of these runs is the loading loop run on those files |
| RelayModel.AlwaysRelayOk | chatserver/relay.go:43-220 | Over every run: 0 <= sent <= size <= 2 GiB, nothing sent before the accept, two different connected ends, at most 8 offered by anybody |
| RelayModel.CapHoldsExactlyWhen | chatserver/relay.go:78-88 | An offer keeps everybody at no more than 8 transfers exactly when the person it is for takes part in fewer |
| RelayModel.AnyNumberOpenToOne | chatserver/relay.go:78-88 | For every n there is a run after which n offers are open to one person |
| RelayTrace.AlwaysTraced | chatserver/relay.go:89-178 | Over every run, what people are told about a transfer follows the grammar of an independent automaton, and the amount passed on is the amount recorded |
| RelayTrace.DisconnectEndsItsTransfers | chatserver/relay.go:203-220 | A disconnect removes exactly its person's transfers and tells each other end once |
| RelayTrace.ExpiryEndsStaleOffers | chatserver/relay.go:183-199 | Expiry removes exactly the unanswered offers left too long and tells each end once |
| Relays.RelayServer.CountOpen | chatserver/relay.go:78-83 | The loop counts the transfers somebody takes part in at either end |
| Relays.RelayServer.OnOffer | chatserver/relay.go:43-100 | Refuses for the first reason that applies, ignores a known id, or records and forwards |
| Relays.RelayServer.OnAccept | chatserver/relay.go:102-116 | Only the receiver of a waiting offer starts it, and the offerer is told |
| Relays.RelayServer.OnDecline | chatserver/relay.go:118-135 | Either end ends it and the other is told |
| Relays.RelayServer.OnChunk | chatserver/relay.go:140-163 | The next slice within the size is passed on; anything else ends the transfer and both ends hear of it |
| Relays.RelayServer.OnDone | chatserver/relay.go:165-178 | The offerer's done removes the record and is passed on |
| Relays.RelayServer.ExpireOffers | chatserver/relay.go:183-199 | The two loops are the abstract expiry, in the order the map was walked |
| Relays.RelayServer.FailTransfersOf | chatserver/relay.go:203-220 | The two loops are the abstract failure, in the order the map was walked |
| Relays.RelayServer.Disconnect | chatserver/server.go:347-355 | A connection that goes is a step of the relay's runs |
| RelaySteps.AcceptIsStep | chatserver/relay.go:102-116 | An accept heard by the server is the three parties' step: the record starts and the offerer is told, or nothing happens |
| RelaySteps.ReceiverDeclineIsStep | chatserver/relay.go:118-135 | So is the receiver's decline: the record goes and the offerer is told |
| RelaySteps.SenderDeclineIsStep | chatserver/relay.go:118-135 | So is the sender's, of which the receiver is told |
| RelaySteps.ChunkIsStep | chatserver/relay.go:140-163 | So is a slice: passed on, ignored, or the end of the transfer for both |
| RelaySteps.DoneIsStep | chatserver/relay.go:165-178 | So is done |
| RelaySteps.OfferIsStep | chatserver/relay.go:43-100 | So is an offer not made before: recorded and forwarded, or refused to its sender |
| RelaySteps.TakenExactlyWhen | chatserver/relay.go:43-100 | An offer is taken exactly when it is well formed and new, for somebody else who is known and connected, from somebody with fewer than 8; one that is new and not taken is answered to its connection alone |
| RelaySteps.AddresseeIs | chatserver/relay.go:43-47 | An offer is for the person it names, or else the one its conversation is with |
| RelaySteps.ExpiryIsStep | chatserver/relay.go:183-199 | An offer left too long is what the three parties call expired, and both ends are told the same |
| RelaySteps.ExpiresExactlyWhen | chatserver/relay.go:89-199 | An offer that was taken stands for two minutes and no longer, and once accepted for good |
| RelaySteps.SenderCutIsStep | chatserver/relay.go:203-220 | The offerer's connection going is their sender cut, and the receiver is told |
| RelaySteps.ReceiverCutIsStep | chatserver/relay.go:203-220 | The receiver's going is their receiver cut, and the offerer is told |
| RelaySteps.OnlyTheEnds | chatserver/relay.go:102-178 | Nobody but the right end of a transfer changes anything about it or makes the server say anything |
| RelaySteps.OthersUntouched | chatserver/relay.go:43-178 | A frame about one transfer leaves every other as it is and says nothing of it |
| TransferModel.AlwaysInv | chatclientd/files.go:193-344 | Over every run of the three parties: each queue follows on from the counter of the party that reads it |
| TransferModel.LandedIsAPrefix | chatclientd/files.go:238-317 | In every reachable state what landed is a prefix of the file, and receiver <= relay <= sender |
| Slices.LandsExactly | chatclientd/files.go:291-317 | Whatever slices come, the file is the longest run of them from the first on that follow on from one another within the size; it is still being written if that is all of them, and has failed otherwise |
| TransferModel.DoneFindsTheWholeFile | chatclientd/files.go:323-344 | When done finds the transfer running, the whole file has landed; it is finished and kept exactly when no digest was offered or the file has it, and otherwise failed and removed; the amount recorded is true exactly when the size offered was |
| Arrival.UndisturbedTransferArrives | chatclientd/files.go:238-344 | For every file offered at its size there is a run that ends with all of it on the receiver's disk and both ends finished |
| Arrival.ChangedFileIsRefused | chatclientd/files.go:333-339 | For every file whose digest is not the one offered there is a run in which all of it lands and done fails the transfer and removes it |
| Arrival.CalledOffAndFinished | chatclientd/files.go:323-344 | For every such file there is a run in which the receiver calls off with done on its way, and ends with nothing on disk and the transfer marked finished |
| CallOff.FinishedWithNothingExactlyWhen | chatclientd/files.go:323-344 | Over every run, done leaves a transfer finished with nothing on disk exactly when, at some step before, the receiver called it off or heard that it was called off |
| CallOff.WhatIsKeptMatches | chatclientd/files.go:323-344 | Over every run, whatever is on disk once done has been heard has the digest offered, if one was, and no slice is taken any more |
| CallOff.DeclineStopsThePush | chatclientd/files.go:211-285 | Over every run, a sender that has heard a decline pushes at most one more slice, and that only if it had already looked |
| TransferModel.CancelledThenFinished | chatclientd/files.go:167-190 | A receiver that calls off a transfer whose done is on its way ends with it marked finished and nothing on disk |
| Files.CallOffChanges | chatclientd/files.go:167-190 | A transfer called off takes its own file and no other, and every other transfer keeps its record, its handle and what it has on disk |
| Files.Transfers.Active | chatclientd/transfers.go:74-88 | The loop counts exactly the waiting and running transfers with one person |
| Files.FileClient.OfferFile | chatclientd/files.go:39-94 | Offers exactly when it is to one person, connected, within the size and within the cap; if the connection then will not take the offer, the transfer recorded fails |
| Files.FileClient.OnOffer | chatclientd/files.go:100-130 | Takes an offer exactly when it is well formed and its sender is within the cap, in place of whatever had its id |
| Files.FileClient.AcceptOffer | chatclientd/files.go:135-162 | Opens a fresh empty file and says yes; without a connection the transfer fails |
| Files.FileClient.DeclineOffer | chatclientd/files.go:167-190 | Ends the transfer, removes what had landed, tells the other end |
| Files.FileClient.OnAccepted | chatclientd/files.go:193-205 | Pushing starts once, for our own waiting offer |
| Files.FileClient.OnDeclined | chatclientd/files.go:211-233 | Ends the transfer and removes what had landed |
| Files.FileClient.PushSlices | chatclientd/files.go:244-278 | The slices written follow on from 0, none empty or over 64 KiB, to the end, to where the transfer was no longer running, or to where the connection gave out |
| Files.FileClient.PushFile | chatclientd/files.go:238-285 | Finished exactly with the whole file written and done behind it; otherwise called off by somebody, or failed where the connection gave out |
| Files.FileClient.OnChunk | chatclientd/files.go:291-317 | Writes the next slice of an accepted transfer, fails on any other, and touches no other transfer |
| Files.FileClient.OnDone | chatclientd/files.go:323-344 | Closes, compares the digest if there is one and a path, keeps or removes the file, and touches no other transfer |
| Files.FileClient.FailTransfer | chatclientd/files.go:346-357 | Marks one transfer failed and closes its file |
| Files.FileClient.FailLiveTransfers | chatclientd/files.go:362-369 | Exactly the transfers in flight fail |
| Wire.LengthRoundTrip | chatwire/wire.go:210-211 | Reading a written length gives it back |
| Wire.PrefixRoundTrip | chatwire/wire.go:226 | Writing a read length gives the same four bytes |
| Wire.FramesComeBack | chatwire/wire.go:200-242 | Reading gives back exactly the frames written, in order, and then what the rest of the stream gives |
| Wire.RoundTrip | chatwire/wire.go:200-242 | The whole stream gives exactly its frames and then its end |
| Wire.CutStreamGivesAPrefix | chatwire/wire.go:221-242 | A stream cut anywhere gives a prefix of its frames and no wrong one |
| Wire.CutIsCleanExactlyWhen | chatwire/wire.go:221-237 | A stream of frames cut after any number of bytes reads as a clean end exactly when the cut falls between two frames or between a header and its body |
| Wire.Reader.ReadFull | chatwire/wire.go:223-224 | The buffer is filled from however many pieces, or the stream is at its end |
| Wire.Reader.ReadFrame | chatwire/wire.go:221-242 | One frame or the error, and what is left, whatever the pieces |
| Wire.Reader.ReadLoop | chatwire/wire.go:218-242 | Every frame of the joined pieces in turn until reading fails |
| Wire.Writer.WriteFrame | chatwire/wire.go:201-216 | A frame over 1 MiB writes nothing; any other is framed at the end, as far as the connection takes it |
| Wire.MessageCrosses | chatwire/wire.go:314-355 | A message is read back from its frame exactly when it has an id and a body within bounds, and then with only its local marks, and a missing clock, changed |

## Left out

- Names.CanonRoomIdempotent: folding is modelled on ASCII letters and spaces; Unicode case and spaces are not.
- Names.FoldedExactlyWhen: of ASCII letters and spaces too.
- Names.CaseFolds: of ASCII letters too.
- Names.OuterSpaceFolds: of ASCII spaces too.
- Daemons.Daemon.Send: Unicode white space is not modelled.
- ChatStores.ChatStore.NextSeq: does not model the wrap-around of a 64-bit counter, which no run of the program reaches.
- ChatStores.ChatStore.Append: a disk that refuses a line is not modelled; a line is written, lost in a crash, or torn.
- ChatStores.ChatStore.LoadLog: files with the same message twice or with messages of two conversations, which the program does not write, and the scanner's limit of 4 MB on a line, which no message reaches, are not modelled.
- ChatStores.ChatStore.LoadHistory: a directory that holds such a file is not modelled either.
- Journal.MemoryFollowsDisk: a crash here leaves whole lines; half lines are in ByteLog, NoLoss and Torn.
- ByteLog.BytesRefine: JSON is a parameter whose lines have no newline and none of whose beginnings, alone or run together, parse.
- ChatServers.ChatServer.OnMessage: the answer to a store that fails is not modelled, since a message that has been routed is never refused by the store.
- ChatServers.ChatServer.Register: the roster that is sent to everybody afterwards is not modelled.
- ChatServers.ChatServer.Enrol: the welcome and the roster frame are not modelled.
- ChatServers.ChatServer.OnJoin: the roster that is sent to everybody afterwards is not modelled.
- ChatServers.ChatServer.OnLeave: the roster that is sent to everybody afterwards is not modelled.
- Guarantees.NumbersAreForEver: a restart here reads back every line; for one that does not see Torn.
- Resume.CursorIsComplete: rooms are fixed, restarts lose no line and every backlog is a delta, which is what the property is promised for; the over-long case is in Backlog and Overlong, the interleaved one in Handoff.
- Resume.SavedCursorIsSafe: restarts lose no line; for those that do, Torn says when a message is asked for again.
- Handoff.CutLosesExactlyWhen: a message counts as lost to this connection; a copy the client already has, or a later join of the room that sends its tail, may still have it there.
- Handoff.NoGap: follows one new connection; senders are any number, but the frames of a room join on that connection are not counted.
- Daemons.Daemon.OnMessage: blocked senders are not modelled.
- Daemons.Daemon.Apply: roster, typing and transfer frames are not among its cases; the last are in Files.
- NoLoss.NothingSentIsLost: messages that announce a file are not covered, since a failed transfer marks them failed.
- RelaySteps.OfferIsStep: which reason a decline gives is not compared here, in any of these steps; Relays states it for each handler.
- TransferModel.AlwaysInv: one connection per end, and each transfer id is offered once, as ids are random.
- Files.FileClient.OfferFile: reading the file and the message that announces the offer are not modelled.
- Files.FileClient.OnOffer: blocked senders and automatic acceptance are not modelled.
- Files.FileClient.AcceptOffer: the choice of a fresh file name is the caller's, and a file that cannot be created is not modelled.
- Files.FileClient.DeclineOffer: the note filed in the conversation is not modelled.
- Files.FileClient.OnDeclined: the note, and the failed state of the message that announced the file, are not modelled.
- Files.FileClient.PushSlices: a file that cannot be read to its end is not modelled.
- Files.FileClient.PushFile: a file that cannot be opened or read to its end is not modelled.
- Files.FileClient.OnChunk: a disk that refuses the write is not modelled.
- Files.FileClient.OnDone: the note filed in the conversation is not modelled.
- Files.FileClient.FailTransfer: the failed state of the message that announced the file is not modelled.
- Wire.RoundTrip: JSON is a parameter that decodes what it encodes and encodes nothing as no bytes.
- Wire.MessageCrosses: of a file that is announced only the transfer's id is modelled, not its name and size.
- Presence, typing, nicknames, colours, notifications, blocking and roster frames.
- Several servers for one client: another server is the reset branch only.
- The bound of 64 frames on a connection's queue, deadlines and back-off: a connection may be cut at any step instead.
- The sender's nickname and the time of receipt, which no order or count depends on.
- Front ends, the local RPC between them and the daemon, discovery, sockets and paths.
- Digests are a parameter; file clean-up of names is not modelled, and names of history files are taken to be different for different conversations.
