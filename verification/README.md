# Distributed mutual exclusion, a Lamport-time bank and their transport

This project models the third and fourth laboratory works of the repository and proves
properties of them. The fourth work is Lamport's mutual-exclusion algorithm: n children,
each with its own scalar clock and request table, and a parent that only watches two
barriers. The third is a bank: the parent works off a script of transfers one by one, the
accounts keep retrospective balance histories over logical time, and a final check audits
them. Both talk over non-blocking pipes through a framing layer that reassembles frames
from arbitrary fragments and serves peers in turn.

## How the model is built

Each process is written twice. A class (`MutexNode.Node`, `BankNode.Node`) has the fields
of the C structures and methods with the loops and branches of the C functions; an
automaton (`MutexProcess`, `BankProcess`) has the same variables as one value and one
function per action. Every method is proved to move along a path of the automaton, and
any check that ends the program is shown to be the check the automaton fails at that
point. The frames a process will receive are an arbitrary finite supply. The class of the
fourth work also writes its trace lines, and they are the lines along the path.

The systems (`MutexSystem`, `BankSystem`) join one automaton per process with one FIFO
channel per ordered pair. A run is any interleaving of single actions. A broadcast is one
action that stamps the frame and then one action per target, because the program writes
targets one at a time; between them the process does nothing else, but all others may.
The number of children is any n >= 1, the script any list of valid orders, the opening
balances any integers. `MutexComposition` and `BankComposition` show that a system is
nothing but its processes and the queues between them, in both directions: a sequence of
steps is a run exactly when every process follows its own path and everything received
was written earlier, in the same order.

The bank is modelled without limits first. `BankLimits` says which actions meet a limit of
the program (255 cells per history, 16-bit sums and clocks), an `Execution` is a run that
has met none, and `BankCompletion` proves exactly which scripts have only such runs. In
`BankSystem` an account in its main loop may hear any peer next; `BankSearch` adds the
cursor with which the program goes through the peers and shows that this only selects
among those runs, and `BankCompletion` that it does not change which scripts are carried
through.

`Framing`, `Tunnel`, `Transport`, `TransportQueues`, `TransportService` and `RoundRobin`
go down to bytes; `FrameCodec` and `SystemChannels` show that the byte level provides the
channels the two systems are built on.

| files | what they hold |
|---|---|
| `Wire`, `Seqs`, `Sums` | message kinds and clock rule; sequences and sums over them |
| `MutexProcess`, `MutexSystem` | one process; the whole system |
| `MutexPair`, `MutexInvariant` | what two processes know of each other; the inductive invariant |
| `MutexSafety`, `MutexTrace`, `MutexTraceMeaning`, `MutexFairness`, `MutexProgress` | exclusion, checks, shutdown, channel bounds; the trace and what it says; bypass; deadlock |
| `MutexCost`, `MutexCounts`, `MutexMessages`, `MutexClock` | accounting for runs, their length, message counts, clocks |
| `MutexPath`, `MutexNode`, `MutexComposition` | the program as a class, and how it fits the system |
| `LedgerCells`, `LedgerBuffer`, `Audit`, `AuditMeaning` | histories with their oracle, in place; the final check |
| `BankProcess`, `BankSystem`, `BankPair`, `BankInvariant`, `BankSteps` | the bank and its invariant |
| `BankSafety`, `BankConservation`, `BankProgress`, `BankTimes`, `BankLog`, `BankReports`, `BankBooks` | its properties: checks, money, stalling, the timetable of all clocks, the event log, the length of histories, the ledgers |
| `BankLimits`, `BankRange`, `BankTermination` | the limits, the scripts that stay within them, where runs end |
| `BankSearch`, `BankChain`, `BankCompletion` | the searches of the accounts, the slowest run, the exact range |
| `BankPath`, `BankNode`, `BankComposition` | the program as a class, and how it fits the system |
| `Framing`, `Tunnel`, `Transport`, `TransportQueues`, `RoundRobin`, `TransportService` | the transport |
| `FrameCodec`, `SystemChannels` | messages as packets; the channels of the systems over bytes |

Three points where a first reading misleads:

* A debit or a credit before the end of a history does not revise the later cells, so the
  ledger operations agree with their oracle only at or after the last cell, or when no
  money moves. `DebitExact` and `CreditExact` say so in both directions, `BookExact` does
  for whole books, and `BankBooks` shows that in every run the bank meets the condition.
* The accounts accept 15 children and any script, but a history ends at logical time 254.
  The times of all transfers and of STOP are the same in every run; from STOP on times
  depend on who hears whom first, and the last moment of the slowest run is n + 1 + 6m + n(n + 5)/2 for m
  orders. `ExactRange` proves that a script is carried through in every order if and only
  if that moment is at most 254 and its balances fit. The ring of `bank_robbery` is within
  the range for up to 14 accounts; with 15 the last moment is 256 and one order of events
  ends an account (`RingRange`), although lab3/README.md names 15 among the supported
  numbers. It is the order of accounts whose searches had all just passed the parent when
  STOP was sent.
* The bound on communication events that keeps the 16-bit clocks in range holds up to 14
  children, one fewer than the program accepts; `ClockRange` says so.

## Model

| member | source | states |
|---|---|---|
| `MutexSafety.MutualExclusion` | lab4/pa4/mutex.c:6-33 | in no reachable state of any number of children, under any interleaving of single writes and receptions, are two children inside |
| `MutexSafety.EntryIsMinimal` | lab4/pa4/mutex.c:28-29 | when a child enters, every other child that is requesting has a later stamp, or the same stamp and a larger id, whether or not that request has arrived yet |
| `MutexSafety.ConfirmedRequestOrder` | lab4/pa4/mutex.c:6-17 | a peer whose reply has been counted either has its request in the own table with its true stamp, or requests later in the order: the table decides as the true stamps would |
| `MutexSafety.NoCheckFails` | lab4/pa4/protocol.c:24-50 | no process ever reaches the failed state, and no reception meets any of the fatal branches of dispatch |
| `MutexSafety.CleanShutdown` | lab4/pa4/protocol.c:84-94 | no write ever goes to a process that has left its run function |
| `MutexSafety.NothingForTheExited` | lab4/pa4/protocol.c:84-94 | once a process has left its run function no frame is in, or on its way into, a channel to it |
| `MutexSafety.ChannelsStayShort` | lab4/README.md:135-137 | at most 3 frames between two children, 2 from a child to the parent, none from the parent, where a frame whose writing has begun counts on the way to every target it has not reached |
| `MutexInvariant.StepKeepsInv` | lab4/pa4/protocol.c:15-51 | every step of every process keeps the invariant that ties flags, tables, clocks, reply accounting and the contents of all channels together |
| `MutexInvariant.InvAlways` | lab4/pa4/protocol.c:70-94 | the invariant holds in every state of every run |
| `MutexInvariant.ChildAccepts` | lab4/pa4/protocol.c:20-50 | whatever a child finds at the head of a channel passes all checks of dispatch and comes from a child |
| `MutexInvariant.ParentAccepts` | lab4/pa4/protocol.c:89-94 | the parent only ever receives STARTED and DONE |
| `MutexInvariant.LearningKeepsPair` | lab4/pa4/protocol.c:20-46 | receiving any frame keeps what holds between its sender, as a requester, and the receiver; a request puts exactly one reply on the way back |
| `MutexInvariant.ListeningKeepsPair` | lab4/pa4/protocol.c:36-42 | the same for the receiver as a requester: a reply moves from the channel to the replied flag |
| `MutexInvariant.BroadcasterKeepsPair` | lab4/pa4/ipc.c:146-156 | stamping STARTED, a request, a release or DONE keeps what holds between the process and each peer, target by target |
| `MutexPair.RequesterRequests` | lab4/pa4/mutex.c:22-26 | stamping a request when none is outstanding keeps what holds between the two sides: no frame of an earlier round can pass for part of the new one |
| `MutexPair.RequesterReleases` | lab4/pa4/mutex.c:39-42 | stamping a release after the reply has been counted keeps what holds between the two sides |
| `MutexPair.PeerReceivesRequest` | lab4/pa4/protocol.c:34-39 | a request that arrives finds no queued request and no DONE of its sender, and answering it at once with a larger stamp keeps what holds between the two sides |
| `MutexPair.HeadAccepted` | lab4/pa4/protocol.c:24-46 | each of the checks of dispatch is met by what the channel can hold in front |
| `MutexTrace.TraceIsSound` | lab4/tests/check.py:54-79 | the trace of every run passes an independent checker: no overlapping sections, request, entry and exit alternate with the right iteration, clocks never step back, and its waiting times equal the statistics |
| `MutexTrace.GrantOrder` | lab4/pa4/mutex.c:9-15 | over a whole run each entry has a later request stamp than every entry before it, or the same stamp and a larger id |
| `MutexTrace.LinesTell` | lab4/pa4/mutex.c:22-42 | in every step of every run: a REQUEST line carries the stamp of the request frame, an ENTER line the clock at entry and the stamp of the request, an EXIT line one less than the stamp of the release frame; nothing else is traced |
| `MutexTraceMeaning.TraceMeans` | lab4/tests/check.py:54-79 | in the trace of every run, line against line: between two entries the first section has ended, the clocks of a process never fall, every line names one iteration more than have ended before it, and every entry has its own request, with its stamp, since the last exit |
| `MutexTrace.EventAccepted` | lab4/pa4/mutex.c:26-38 | the checker accepts the next trace line of a process whose record matches its variables, and the record matches again afterwards |
| `MutexFairness.BoundedBypass` | lab4/pa4/mutex.c:19-33 | between a request and its entry every other child enters at most twice, all others together at most 2(n-1) times |
| `MutexTraceMeaning.NoThirdEntry` | lab4/pa4/mutex.c:19-33 | of any three entries of another child in the trace the first was made before the request that is waiting |
| `MutexFairness.StepKeepsBounded` | lab4/pa4/protocol.c:34-42 | every step keeps the bound for every pair of children, with the stage of the request in the channel |
| `MutexProgress.DeadlockFreedom` | lab4/pa4/protocol.c:73-94 | in every reachable state in which some process has not left its run function some step is enabled |
| `MutexProgress.OldestMayEnter` | lab4/pa4/mutex.c:28 | once all have started and all channels are empty, the requesting child with the earliest stamp, on equal stamps the one with the smallest id, satisfies first_and_confirmed |
| `MutexProgress.HearsOnlyWaiting` | lab4/pa4/mutex.c:28 | in every run a frame is taken only at a barrier some other child has not reached, or with a request that someone has not confirmed or someone else comes before: whoever may go on takes no more |
| `MutexProgress.FinishedState` | lab4/pa4/protocol.c:84-94 | when every process has left its run function all channels are empty, all tables clear, and every child has done 5 id rounds |
| `MutexProgress.StuckMeansDone` | lab4/pa4/protocol.c:73-94 | a reachable state without enabled steps is one where every process has left its run function |
| `MutexCost.StepPays` | lab4/pa4/protocol.c:70-94 | for any prices of the things a process does, every step lowers what is still to be paid by exactly its own price |
| `MutexCost.PaidPlusRemaining` | lab4/pa4/protocol.c:70-94 | paid so far plus still to be paid is the same in every state of a run, for any prices |
| `MutexCounts.Termination` | lab4/pa4/protocol.c:70-94 | no run has more than 2 + n(4n+6) + 5n(n+1)/2 (6n-1) steps, and a run cannot go on exactly when it has that many |
| `MutexCounts.CompleteRun` | lab4/pa4/protocol.c:70-94 | a run that cannot go on has brought every process to its end and every child through 5 id rounds, and leaves all channels and tables empty |
| `MutexMessages.MessageCost` | lab4/README.md:131-132 | a complete run sends, and receives, exactly 3(n-1) times 5n(n+1)/2 request, reply and release frames, and has exactly the stated number of communication events |
| `MutexMessages.ChildCounters` | lab4/tests/check.py:87-92 | each of the six counters of each child ends at its closed form |
| `MutexMessages.ChildStatistics` | lab4/tests/check.py:87-92 | a row of the statistics: 5i(n-1) requests and releases sent and replies received, 5n(n+1)/2 - 5i requests and releases received and replies sent |
| `MutexMessages.ChildEntries` | lab4/tests/check.py:90 | the entry counter of child i ends at 5i |
| `MutexMessages.CounterIsPaid` | lab4/pa4/stats.c:33-38 | in every state each counter equals the number of frames of its kind written, or received, so far |
| `MutexClock.ClockCondition` | lab4/pa4/clock.c:10-26 | along every causal chain of events, through processes and frames, clock values strictly increase |
| `MutexClock.FramesHaveOrigin` | lab4/pa4/ipc.c:128-143 | every frame under way was stamped by an earlier step of its sender, so the chains of the clock condition miss no message |
| `MutexClock.ClocksCountEvents` | lab4/pa4/clock.c:10-26 | no clock and no stamp under way exceeds the number of communication events so far |
| `MutexClock.ClockRange` | lab4/pa4/clock.c:10-20 | with up to 14 children no run ever meets a clock check |
| `MutexComposition.Composition` | lab4/pa4/ipc.c:128-143 | in every state of every run each process has followed a path of its own automaton, and each channel holds what was written minus what was delivered, in order |
| `MutexComposition.RunsAreInterleavings` | lab4/pa4/ipc.c:159-204 | a sequence of steps is a run of the system if and only if each process follows a path of its own automaton and every frame it receives is, peer by peer, the next one written to it before |
| `MutexComposition.TraceIsComposed` | lab4/pa4/main.c:69-77 | the lines of each process in the trace of a run are the lines along its own path |
| `MutexNode.Node.constructor` | lab4/pa4/node.h:13-25 | a new node is in the initial state of the automaton with an empty path |
| `MutexNode.Node.ClockSend` | lab4/pa4/clock.c:10-15 | advances the clock by one unless it stands at its limit |
| `MutexNode.Node.ClockReceive` | lab4/pa4/clock.c:17-26 | the clock becomes one more than the larger of both, unless a check refuses |
| `MutexNode.Node.StatsMessage` | lab4/pa4/stats.c:33-38 | exactly the counter of that kind and direction grows by one |
| `MutexNode.Node.StatsEntry` | lab4/pa4/stats.c:40-47 | entries, total and longest wait take in the time since the own request |
| `MutexNode.Node.WriteAll` | lab4/pa4/ipc.c:137-142 | the loop over the targets writes the same frame to each but the own id, in order, counting each |
| `MutexNode.Node.SendMulticast` | lab4/pa4/ipc.c:128-143 | one stamp, then the frame to everybody else including the parent |
| `MutexNode.Node.SendChildren` | lab4/pa4/ipc.c:146-156 | one stamp, then the frame to every other child |
| `MutexNode.Node.Send` | lab4/pa4/ipc.c:116-126 | refused exactly for an impossible target; otherwise one stamped frame |
| `MutexNode.Node.FirstAndConfirmed` | lab4/pa4/mutex.c:6-17 | true exactly when every other child has replied and every queued request has a later stamp than the own one, or the same stamp and a larger id |
| `MutexNode.Node.AllReceived` | lab4/pa4/protocol.c:6-11 | the loop decides exactly whether every other child is marked |
| `MutexNode.Node.Handle` | lab4/pa4/protocol.c:20-50 | fails exactly on DONE with an open request, on mutex frames with the parent or with a payload, on a duplicate or late request, an unexpected reply and a release without request; otherwise has the effect of the automaton, reply included |
| `MutexNode.Node.Dispatch` | lab4/pa4/protocol.c:15-51 | takes the next frame and moves one reception, with its writes, along the path; blocks exactly when nothing is left to receive |
| `MutexNode.Node.RequestCs` | lab4/pa4/mutex.c:19-33 | refused exactly for the parent or when busy; otherwise request, receptions until first and confirmed, entry, all on the path, which fixes the trace lines as well |
| `MutexNode.Node.ReleaseCs` | lab4/pa4/mutex.c:35-43 | refused exactly when not inside; otherwise traces the exit with the clock it finds, clears the own request and announces it |
| `MutexNode.AnnouncementFrames` | lab4/pa4/protocol.c:53-68 | STARTED and DONE go to everybody including the parent, with the length of their text |
| `MutexNode.Node.ChildRun` | lab4/pa4/protocol.c:70-87 | for any finite delivery the whole run of a child is a path of the automaton and, if it completes, ends with 5 id rounds |
| `MutexNode.Node.ParentRun` | lab4/pa4/protocol.c:89-94 | the same for the parent |
| `BankConservation.Conservation` | lab3/pa3/bank.c:56-71 | in every reachable state and for every logical time t, balances plus pending money at t plus transfers stamped by t that are still on their way equal the opening total |
| `BankConservation.StepKeepsTotal` | lab3/pa3/bank.c:44-78 | every single step keeps that total for every t |
| `BankConservation.ActorBooks` | lab3/pa3/history.c:36-58 | whatever an account does, its worth at t plus the transfer it stamps changes only by the transfer it takes in |
| `BankSafety.NoCheckFails` | lab3/pa3/bank.c:44-127 | no protocol check ever fails: wrong channel, unexpected kinds, repeated STOP or DONE and an interval that does not run forward are all unreachable (the limits of the ledger are the subject of `BankRange.NoLimitMet`) |
| `BankSafety.NothingMovesAfterStop` | lab3/pa3/bank.c:157-161 | when STOP is sent, and ever after, no channel holds a TRANSFER or an ACK |
| `BankSafety.OneTransferAtATime` | lab3/pa3/bank.c:129-148 | at most one frame in the whole system belongs to a transfer |
| `BankInvariant.RunningChildAccepts` | lab3/pa3/bank.c:90-118 | what an account in its main loop receives passes its checks; a TRANSFER is the one in progress and comes from the right side |
| `BankInvariant.StartingChildAccepts` | lab3/pa3/bank.c:29-40 | an account waiting for STARTED of a peer receives exactly that |
| `BankInvariant.ParentAccepts` | lab3/pa3/bank.c:143-186 | the parent receives STARTED, the ACK of the destination, DONE and histories where it expects them |
| `BankSteps.StepKeepsInv` | lab3/pa3/bank.c:44-187 | every step keeps the invariant that says where the one transfer is and what every channel holds |
| `BankSteps.InvAlways` | lab3/pa3/bank.c:44-187 | the invariant holds in every state of every run, for every valid script |
| `BankSteps.TokenStep` | lab3/pa3/bank.c:129-148 | a transfer passes through its stages in order, each prompted by the frame of the stage before |
| `BankTimes.StepKeepsOnTime` | lab3/pa3/clock.c:10-26 | every step keeps every clock and every stamp under way within the timetable: fixed by the script up to STOP, from then on bounded by the number of accounts that have stopped and of DONEs taken in |
| `BankTimes.ClosingOnTime` | lab3/pa3/bank.c:97-113 | hearing STOP or a DONE leaves an account no later than the latest stamp so many stopped accounts can have given, plus one, plus the DONEs it has taken in (plus all DONEs sent so far, if it hears STOP) |
| `BankTimes.TransferOnTime` | lab3/pa3/bank.c:56-75 | the source takes its order at n + 6k + 3 and the destination its money at n + 6k + 5, in every run |
| `BankLog.LogFollowsScript` | lab3/tests/verify.py:40-57 | the log has one departure and one arrival per order, in script order; order k (from 0) departs at exactly n + 6k + 4 and arrives at exactly n + 6k + 5 in every run; complete after STOP |
| `BankLog.StepKeepsLogged` | lab3/pa3/bank.c:56-75 | every step keeps the log in line with the script, its length with the orders completed and the stage of the transfer in progress |
| `BankLog.ClocksOnTime` | lab3/pa3/clock.c:10-26 | in every state of every run no account is later than 1 after the last moment n + 1 + 6m + n(n + 5)/2 and no history is longer than that moment |
| `BankRange.TransferEnds` | lab3/pa3/history.c:20-58 | a transfer meets a limit if and only if its line of the log does not fit: its fixed time is beyond 254, or the balance after it, or the amount pending, is outside int16 |
| `BankRange.NoLimitMet` | lab3/pa3/history.c:20-58 | for a script whose last moment is at most 254 and whose balances fit no step that is ever enabled meets a limit of a history, a sum or a clock |
| `BankRange.LineNeverPassed` | lab3/pa3/history.c:20-25 | for a line that does not fit no run of the program ever logs it, and STOP is never sent |
| `BankSearch.WalkIsRun` | lab3/pa3/ipc.c:191-207 | what the bank does with searches as the cursor makes them is, the searching left out, a run of the bank, and meets no limit if the walk meets none |
| `BankSearch.Found` | lab3/pa3/ipc.c:191-207 | where some peer has a frame, going on from the cursor comes to a peer that has one |
| `BankSearch.HeardInTurn` | lab3/pa3/ipc.c:191-207 | in every walk a peer with a frame for an account is heard before the search of that account has made more than n moves, peers passed over included, whatever else happens |
| `BankChain.LastMomentReached` | lab3/pa3/bank.c:90-122 | for every number of accounts, script and opening some walk, cursors respected, brings account n to its report with its clock at exactly the last moment |
| `BankCompletion.ExactRange` | lab3/pa3/history.c:20-25 | some run of the program ends at a limit if and only if the last moment n + 1 + 6m + n(n + 5)/2 is beyond 254 or some line of the log does not fit; the same if and only if for runs with the cursor's order of receptions |
| `BankCompletion.TooManyOrders` | lab3/pa3/history.c:20-25 | with n + 6m - 1 beyond 254 no run of the program ever sends STOP |
| `BankCompletion.FortyThreeOrders` | lab3/pa3/history.c:20-25 | two accounts and 43 orders: the last arrival would be at 259, and every run ends before STOP |
| `BankCompletion.RingRange` | lab3/pa3/bank_robbery.c:4-13 | for opening balances the program accepts, the ring of bank_robbery is carried through by all runs exactly for up to 14 accounts, with the cursor's order and with any |
| `BankCompletion.RingTravels` | lab3/pa3/bank_robbery.c:4-13 | after k orders of bank_robbery the unit of account 1 is with account k + 1, and after all of them back with account 1 |
| `BankBooks.BooksAlwaysAgree` | lab3/tests/verify.py:58-73 | in every state of every run each cell of each ledger is what the log says |
| `BankBooks.ActorAgrees` | lab3/pa3/bank.c:56-75 | every action of an account changes its ledger as the line it logs says |
| `BankBooks.CompletedRunPasses` | lab3/pa3/history.c:60-99 | the final check never rejects what a parent has collected |
| `BankBooks.PrintedTable` | lab3/tests/verify.py:58-75 | in the table finally printed every cell, padding included, agrees with the complete log of the script; each history has one cell for each time below the stamp of its report, and the table is as long as the longest |
| `BankBooks.TableInFull` | lab3/pa3/bank.c:120-126 | every collected history has exactly one cell for each time from 0 to the clock of its account when it reported |
| `BankReports.HistoriesReach` | lab3/pa3/bank.c:120-126 | a BALANCE_HISTORY frame under way has as many cells as its stamp says, that is, reaches up to the clock at the report |
| `BankReports.FramesInStep` | lab3/pa3/bank.c:56-105 | when an order is passed on the history reaches up to its stamp; when an acknowledgement or DONE goes out, up to the time before |
| `BankReports.StepKeepsInStep` | lab3/pa3/bank.c:44-126 | every step keeps histories and frames in that relation |
| `BankReports.ReportedInFull` | lab3/pa3/bank.c:120 | whatever happens after a report, the account's history has one cell for each time up to the clock at the report |
| `BankPath.FollowReaches` | lab3/pa3/history.c:20-34 | for any deliveries the history of a process never reaches beyond its clock, and a reported one exactly up to the time of the report |
| `BankProgress.StuckParent` | lab3/pa3/bank.c:150-187 | where no step at all is enabled, not even one that meets a limit, the parent has received every DONE and every history |
| `BankProgress.StuckHasReported` | lab3/pa3/bank.c:90-126 | where no step at all is enabled, not even one that meets a limit, every account has heard DONE from all others and sent its history |
| `BankTermination.HearsOnlyServing` | lab3/pa3/bank.c:90 | in every run an account takes a frame in its main loop only until it has STOP and everybody's DONE |
| `BankProgress.MarksComplete` | lab3/pa3/bank.c:106-113 | the number of marks reaches n-1 exactly when every other account is marked |
| `BankTermination.Termination` | lab3/pa3/bank.c:80-187 | no run of the program, limits included, has more than 4n^2 + 10n + 5 + 7m steps for m orders, and one that long cannot go on; for a script within the range of `ExactRange` it cannot go on exactly when it has that many |
| `BankTermination.FinalState` | lab3/pa3/bank.c:80-187 | a run of that length, and every run that cannot go on if the script is within the range, ends with the parent through, every account reported, all channels empty and the log complete |
| `BankTermination.StepLeaves` | lab3/pa3/bank.c:80-187 | every step lowers the number of steps left by exactly one |
| `BankComposition.Composition` | lab3/pa3/ipc.c:115-142 | in every state of every run of the program each process has followed a path of its own automaton, and each channel holds what was written minus what was delivered, in order |
| `BankComposition.RunsAreInterleavings` | lab3/pa3/ipc.c:115-142 | a sequence of steps is a run of the program if and only if each process follows a path of its own that meets no limit and every frame it receives is, peer by peer, the next one written to it before |
| `BankNode.Node.constructor` | lab3/pa3/bank.c:80-89 | a new process is in the initial state of the automaton, its ledger opened |
| `BankNode.Node.ClockReceive` | lab3/pa3/clock.c:17-26 | the clock becomes one more than the larger of both, unless a check refuses |
| `BankNode.Node.WriteAll` | lab3/pa3/ipc.c:136-140 | the loop over the targets writes the same frame to each but the own id, in order |
| `BankNode.Node.ProcessTransfer` | lab3/pa3/bank.c:44-78 | fails exactly unless the order names two different accounts and no negative amount and this process is its source, hearing the parent, or its destination, hearing the source, with a stamp before the clock; otherwise debits or credits and sends on as the automaton says, or stops on what the ledger cannot hold |
| `BankNode.Node.Forward` | lab3/pa3/bank.c:56-66 | the debit is booked at the stamp the outgoing frame then gets |
| `BankNode.Node.Accept` | lab3/pa3/bank.c:67-75 | the credit runs from the stamp of the frame to the clock of its reception |
| `BankNode.Node.Handle` | lab3/pa3/bank.c:92-118 | the switch over the message type fails exactly on the rejected frames and otherwise has the effect of the automaton |
| `BankNode.Node.Turn` | lab3/pa3/bank.c:90-119 | one turn of the main loop is one reception on the path |
| `BankNode.Node.WaitStarted` | lab3/pa3/bank.c:29-42 | STARTED from every other account in order of id, or the first failed check |
| `BankNode.Node.Announce` | lab3/pa3/bank.c:7-27 | STARTED goes to everybody with the length of its text |
| `BankNode.Node.TakeStop` | lab3/pa3/bank.c:96-105 | fails exactly on a STOP not from the parent, repeated or with a payload; otherwise the history is brought up to the clock and DONE goes to everybody with the length of its text |
| `BankNode.Node.Transfer` | lab3/pa3/bank.c:129-148 | refused exactly for an invalid order or a caller other than the parent; otherwise the order goes out and the acknowledgement comes in |
| `BankNode.Node.ChildRun` | lab3/pa3/bank.c:80-127 | for any finite delivery the whole run of an account is a path of the automaton; its last frame is its history, with one cell for each time up to the clock at the report; what ends it early is named |
| `BankNode.Node.ParentRun` | lab3/pa3/bank.c:150-189 | the same for the parent; it completes exactly when the collected histories pass the final check |
| `BankNode.Node.HistoryFinish` | lab3/pa3/history.c:60-99 | the check on everything collected decides exactly AuditOk |
| `LedgerCells.DebitExact` | lab3/pa3/history.c:36-41 | a debit keeps a ledger in agreement with the oracle if and only if it is not before the last cell or moves no money |
| `LedgerCells.CreditExact` | lab3/pa3/history.c:43-58 | the same for a credit and its arrival time, pending cells included |
| `LedgerCells.BookExact` | lab3/pa3/history.c:36-58 | posting a whole book to a new ledger agrees with the oracle after every entry if and only if no entry that moves money comes with a moment before the latest one so far |
| `LedgerCells.OrderedBookExact` | lab3/pa3/history.c:36-58 | a book in the order of its moments always ends in a ledger that agrees with the oracle cell by cell |
| `LedgerCells.ExtendedExact` | lab3/pa3/history.c:20-34 | carrying balances forward keeps the agreement |
| `LedgerCells.OpenedExact` | lab3/pa3/history.c:12-18 | a new ledger agrees with an empty book |
| `LedgerCells.OracleSettled` | lab3/tests/verify.py:65-70 | after the last entry the oracle is constant and nothing is pending |
| `LedgerCells.CreditedWorth` | lab3/pa3/history.c:50-57 | a credit raises what the account is worth from the time the money was sent, not from its arrival |
| `LedgerCells.DebitedWorth` | lab3/pa3/history.c:36-41 | a debit lowers what the account is worth from its own time on |
| `LedgerBuffer.Ledger.constructor` | lab3/pa3/history.c:12-18 | one cell with the opening balance |
| `LedgerBuffer.Ledger.Extend` | lab3/pa3/history.c:20-34 | succeeds exactly for times from 0 to 254; then the buffer holds the carried-forward cells and the one-byte length is their number |
| `LedgerBuffer.Ledger.Debit` | lab3/pa3/history.c:36-41 | succeeds exactly when the time is from 0 to 254 and the balance stays from -32768 to 32767 |
| `LedgerBuffer.Ledger.Credit` | lab3/pa3/history.c:43-58 | rewrites the past in place; succeeds exactly when interval, amount and every rewritten cell are in range |
| `AuditMeaning.Meaning` | lab3/pa3/history.c:60-99 | the check accepts exactly the histories where every account names itself and opens with its balance, nothing is pending in a last cell, every cell is stamped with its own time and has no negative pending, and the total is the opening total at every time whatsoever |
| `AuditMeaning.WorthSettles` | lab3/pa3/history.c:80-83 | past the longest history nothing changes any more |
| `Audit.AllHistory.CheckOpenings` | lab3/pa3/history.c:63-73 | decides owners and opening balances, and finds the longest history and the expected total |
| `Audit.AllHistory.PadAccount` | lab3/pa3/history.c:80-84 | repeats the last cell with its own time and touches nothing else |
| `Audit.AllHistory.PadHistories` | lab3/pa3/history.c:74-85 | decides whether nothing is pending at the end, and brings all histories to one length |
| `Audit.AllHistory.CheckSlices` | lab3/pa3/history.c:86-98 | decides whether every slice is stamped and adds up |
| `Audit.AllHistory.Finish` | lab3/pa3/history.c:60-99 | accepts exactly what AuditOk says, and leaves the original cells as they were |
| `Audit.AllHistory.Store` | lab3/pa3/bank.c:180 | a received history takes the place of one account and no other |
| `Framing.ExamineEncoded` | lab4/pa4/ipc.h:40-57 | decoding inverts encoding for every frame |
| `Framing.FrameLayout` | lab4/pa4/ipc.h:40-57 | byte by byte: AF AF, the length, type and stamp in two's complement, low bytes first, then the payload; 8 to 4096 bytes in all |
| `Framing.HeaderChecked` | lab4/pa4/ipc.c:172-180 | a header is refused exactly for another magic number or a length over 4088, and a frame is complete exactly when its length is reached |
| `Framing.EncodeExamined` | lab4/pa4/ipc.h:40-57 | encoding inverts decoding: only encodings of frames pass for frames |
| `Framing.ExaminePart` | lab4/pa4/ipc.c:172-180 | a part of a frame asks for its header, then for exactly the rest of the frame |
| `Framing.SameFront` | lab4/pa4/ipc.c:179-180 | the header alone fixes where a frame ends: two streams that agree begin with the same frame |
| `Framing.FrontFrames` | lab4/pa4/ipc.c:171-203 | frames cut off the front of a stream of frames are those frames, in order, and leave the encoding of the others |
| `Tunnel.FifoRefinement` | lab4/pa4/ipc.c:96-114 | for any fragmentation of writes and reads the frames delivered are a prefix of those sent, no byte of the next frame is consumed early, no header is refused, and the clock has moved once per delivered frame |
| `Tunnel.FetchStaysInside` | lab4/pa4/ipc.c:188-191 | a read that respects the limit never reaches beyond the frame begun |
| `Tunnel.NothingStuck` | lab4/pa4/ipc.c:171-203 | no more chunk can move exactly when everything sent has been delivered |
| `TransportService.ServedInTime` | lab4/pa4/ipc.c:206-222 | a peer whose bytes begin with one complete frame is served, with exactly that frame, within as many successful searches as there are other processes, whatever arrives from whom in between |
| `TransportService.ArrivalKeepsReady` | lab4/pa4/ipc.c:171-203 | bytes that arrive later, or the end of the stream, do not change what a complete frame in front is |
| `TransportService.CallApproaches` | lab4/pa4/ipc.c:206-222 | a successful search either delivers the frame that waits at a peer or leaves it waiting with the cursor closer |
| `RoundRobin.ScanApproaches` | lab4/pa4/ipc.c:209-220 | a search that ends at another peer brings the cursor closer to a waiting one |
| `RoundRobin.AheadIs` | lab4/pa4/ipc.c:212-215 | the peers ahead of one are its cyclic distance from the cursor, less the own id if that lies between |
| `Transport.Endpoint.constructor` | lab4/pa4/node.h:13-18 | a channel from every other process, open and empty, none from itself, all decoders empty |
| `Transport.Endpoint.Read` | lab4/pa4/ipc.c:188-202 | one system call: between one byte and the limit, end of file, would block, interrupted or failed, each with its exact effect |
| `Transport.Endpoint.Deliver` | lab4/pa4/ipc.c:180-182 | the frame in the buffer is copied out and the buffer is empty |
| `Transport.Endpoint.Gather` | lab4/pa4/ipc.c:171-203 | the loop ends only with a complete frame, a bad header, nothing more to read, end of file or a failure, and loses no byte |
| `Transport.Endpoint.Receive` | lab4/pa4/ipc.c:159-204 | delivers exactly the first frame of the peer, advancing the clock once; with no frame there the bytes and the clock are left as they were, and the own end is closed exactly if the peer has gone and nothing is left to read; an error only for a bad header, a frame broken off, a refused stamp or a failed read, each with its effect on the channel |
| `Transport.Endpoint.ReceiveAny` | lab4/pa4/ipc.c:206-222 | the answer comes from the first peer, counted from the cursor, that calls for one; those before it have been tried, those behind it not touched, and the cursor stands behind the peer served; after a fruitless round no end of a peer that has gone with nothing left is open |
| `Transport.Endpoint.AwaitAny` | lab4/pa4/ipc.c:237-252 | whatever arrives between the searches: the frame of the last search, or its failure; the end exactly when every peer has gone and nothing is left to read, at once if that was so before; otherwise it goes on waiting |
| `Transport.Endpoint.AwaitMessage` | lab4/pa4/ipc.c:224-235 | the same for one peer, whose departure ends it |
| `Transport.Endpoint.WriteFrame` | lab4/pa4/ipc.c:96-114 | on success exactly the frame has been appended, on failure a proper part of it, whatever the chunks |
| `Transport.Endpoint.Send` | lab4/pa4/ipc.c:116-126 | refused exactly for an impossible target or more than 4088 bytes of payload; otherwise one encoded frame with the moved clock, or a proper part of it if a write fails |
| `Transport.Endpoint.Multicast` | lab4/pa4/ipc.c:128-156 | one stamp, and the same encoded frame appended for every target but the own id |
| `TransportQueues.JudgedByQueue` | lab4/pa4/ipc.c:171-203 | a channel that carries encodings is ready with the head of its queue once that frame is complete, idle before, and never broken |
| `TransportQueues.ReceiveTakesHead` | lab4/pa4/ipc.c:180-185 | a successful receive takes the head of the queue and leaves the rest |
| `TransportQueues.ReceiveRarelyFails` | lab4/pa4/ipc.c:159-204 | on such a channel only a clock at its limit or a failed system call is an error |
| `TransportQueues.WritingExtends` | lab4/pa4/ipc.c:96-114 | writing a frame appends it to the queue of the other side |
| `FrameCodec.MsgBack` | lab4/pa4/ipc.h:28-52 | a packet stands for a message of the mutual exclusion exactly when it is one of its encodings |
| `FrameCodec.CellsBack` | lab3/pa3/banking.h:29-36 | a row of history cells, six bytes each, is read back as written, whatever follows |
| `FrameCodec.FrameBack` | lab3/pa3/banking.h:23-52 | every frame the bank can send, transfer orders and histories included, fits into a packet and is read back as that frame |
| `FrameCodec.FrameOnly` | lab3/pa3/bank.c:174-184 | what is read as a frame of the bank, with the payload its type calls for and accounts other than 0, is one of the encodings of that frame: lengths count to the byte |
| `FrameCodec.TypesAre` | lab4/pa4/ipc.h:28-38 | the numbers of the nine message types, in both directions |
| `FrameCodec.OrderLayout` | lab3/pa3/banking.h:23-27 | an order is four bytes: source, destination, amount |
| `FrameCodec.CellLayout` | lab3/pa3/banking.h:29-36 | a cell is six bytes: balance, time, pending |
| `FrameCodec.CellPlace` | lab3/pa3/banking.h:47-52 | cell t of a history begins 6t bytes behind its head |
| `SystemChannels.OneMeaning` | lab4/pa4/ipc.c:171-203 | the bytes on a channel fix the queue of messages it holds |
| `SystemChannels.MessageSent` | lab4/pa4/ipc.c:96-114 | sending a message of the mutual exclusion appends it to the queue the bytes stand for, however few of them have been written yet |
| `SystemChannels.MessageReceived` | lab4/pa4/ipc.c:159-204 | a successful receive yields the head of that queue and leaves the rest; finding nothing leaves the queue as it is; an error means the stamp of the head, or the clock, is at its limit |
| `SystemChannels.FrameSent` | lab3/pa3/ipc.c:96-114 | the same for the frames of the bank: sending appends |
| `SystemChannels.FrameReceived` | lab3/pa3/bank.c:44-50 | receiving takes the head, with its order or history as sent |
| `SystemChannels.ArrivalConveys` | lab4/pa4/ipc.c:188-202 | bytes that arrive in pieces change nothing in the queue |

## Left out

- MutexClock.ClockRange: covers up to 14 children; for 15 the number of communication events (35280) exceeds the int16 limit, so counting events is not enough there and nothing is claimed.
- MutexSystem.Apply: clocks are unbounded in the global system; the int16 checks are the predicate `Overflows` there and real branches in `MutexNode.Node`.
- BankSystem.Apply: clocks, balances and history lengths are unbounded in the automaton of the bank; `BankLimits` says which of its actions meet a limit, `BankRange.Execution` stops there, and `BankCompletion.ExactRange` says for which scripts that happens.
- MutexSystem.Enabled: any peer with a frame may be heard next; the cursor of `receive_any` is modelled in `RoundRobin`, `Transport` and `BankSearch` and not joined to this system, whose theorems hold for every order.
- BankNode.Node.ParentRun: the transfers asked for by `bank_robbery` are a fixed list of valid orders; what the function itself computes is not modelled.
- BankProcess.Rejected: account ids in an order are natural numbers, so the negative ids an eight-bit field could carry are not distinguished from other ids outside 1..n.
- Transport.Endpoint.Receive: what system calls do comes from finite lists; once a list is used up a call transfers as much as it can, so endless interruption is not modelled.
- The transport (`Transport`) does not count frames; the counters are in `MutexNode.Node`.
- Runs without `--mutexl`: the work loop then only prints.
- Statistics switched off; the model always counts.
- Texts of STARTED and DONE, of the event log and of the trace: only their lengths and the numbers in them.
- `message_init`, `fatal`, `event`, `print`: frames are built where they are sent, fatal ends are outcomes, log lines are values.
- Process and pipe setup, closing of descriptors at the end, waiting for processes, argument parsing.
- The byte order and packing of structures: the packed layouts of header, transfer order and history are fixed, little-endian.
- FrameCodec.PayloadOf: a negative eight-bit account id is read as 0, which is no account either.
- Departed peers, as `await_message` and `await_any` see them, are modelled in `Transport`; in the two `Node` classes a waiting process whose supply is used up is `Blocked`.
- Crashes and recovery: the program assumes correct processes and FIFO channels.
- The first and second laboratory works: the same barriers without logical time, and the same bank without pending money.
