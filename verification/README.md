# Outbox delivery and partition maintenance: a verified model

The driver reads an outbox table through PostgreSQL logical replication, groups inserted rows by transaction,
submits them to jack-service in batches, dead-letters the rejected ones, and records how far it got in a cursor
row. Beside that it keeps a sliding window of hourly (or other fixed-interval) partitions. This project models
both and proves what they promise. `dafny verify dfyconfig.toml` checks everything.

## How it is laid out

**Delivery.** Three descriptions of the same behaviour, each proved to follow the next.

- `Driver.dfy` (module `DriverCode`) is the code: classes with mutable fields and the receive loop. Clock
  readings, server messages, submit answers and database outcomes come in as a script, one `Turn` per iteration.
  Its methods are proved to compute exactly what the functions of `Stream.dfy` say.
- `Stream.dfy` and `Session.dfy` are one session as a fold over its script; `Fold.dfy`, `Progress.dfy`, `Messages.dfy`
  and the deadline discipline in `Stream.dfy` are about all scripts. `Stages.dfy` cuts a turn into the stretches
  between two accesses to what drivers share.
- `Cluster.dfy` is a step relation over one slot, one database and any number of drivers. Its steps include a
  crash at any point, a failed submit of which any part was taken, a commit that fails but takes effect, at once or at
  any later time, a server that forgets the slot's holder, and a driver that finishes a flush after losing the slot.
  `Refinement.dfy` maps one session, all sessions of one driver, and the interleaved stages of any number of drivers to
  such steps, together with the rows that the code received and did not decode. `Safety.dfy`, `Containment.dfy`,
  `SingleDriver.dfy` and `RepeatedIds.dfy` are about every run. `Counterexamples.dfy` shows that, among the rules that
  `Cluster.Rules` can express, no weaker one would do; `Begins.dfy` trades the strongest one for a premise on decoding.

**Partitions.** `Calendar.dfy` (days and dates), `Names.dfy` (printing and parsing names), `GridTime.dfy`
(multiples of an interval), `Maintenance.dfy` (the primary's transactions in any interleaving),
`Partitions.dfy` (the driver's passes and setup's initial partition), `Replica.dfy` (the name-based path).

**Rows.** `Rows.dfy`, `Decimal.dfy`, `Utf8.dfy`, `DeadLetters.dfy`.

## What is assumed

- The transactions a run can meet are fixed in advance and have increasing commit end LSNs. A finite run meets
  finitely many, so this loses no run. The server sends whole transactions in commit order; a start at LSN s sends
  those that commit after max(s, confirmed); confirmed only moves forward.
- **Positions.** An idle advance writes a position the session merely heard (`WALStart + len(WALData)` at
  wal.go:153, `ServerWALEnd` at wal.go:138). The code does not check that nothing unsent lies at or below it, and
  the length of a decoded message is not a length of WAL. The assumption is the value `Visible` of
  `Cluster.Positions`: a heard position reaches the commit of a transaction not yet sent in full only while the
  session sees that transaction open, by a decoded Begin or a buffered row. `Counterexamples.LosesUnsent` loses
  a row when nothing is assumed. `LosesBehindLostBegin` loses one under the weaker reading `Started`, in which it
  is enough that the server has sent the Begin: a Begin that does not decode leaves `inTx` false. That is its only way
  to fail: in runs in which every Begin decodes, `Started` is enough (`Begins.DecodedBeginsSuffice`).
- **Exclusion is not assumed.** Whether the slot keeps two drivers from streaming at once is a parameter of the
  rules; no invariant mentions it. `TwoLeaders` shows that `isLeader` can be set in two drivers even when it does.
- Rows whose Insert does not decode, or whose relation is unknown, are dropped by design. `State.dropped` is the
  history of those rows and delivery is stated for the others. For the code that history is computed from the messages
  it received (`Refinement.DropsExactly`), so that a row lost in any other way would contradict the theorems.
  Rows are tracked by value, and a row that decodes is assumed to decode to the same value in every session: the server
  never sends a row under an outdated Relation message that would read it as something else.
- **Late commits.** Whether a commit its driver has given up on may take effect after the next session has read the
  cursor is a parameter of the rules, `lateCommits`. Delivery and slot safety hold either way. Single dead-lettering
  needs that it does not happen: `Counterexamples.LateCommitDeadLettersTwice`.
- Runs begin without a cursor row, on a slot behind every transaction. The dead-letter table only grows.
- Configured sizes and intervals are positive. Partition intervals are whole minutes where names are concerned, and
  the starting registry is on the grid: setup's initial partition is hourly, so it needs an interval of one hour.

## Where the code and its documentation disagree

- `parseInsert` is said to return nil for a relation that is not the outbox table (wal.go:228-229). It never looks at
  the relation's name. `Messages.CommentHoldsExactly`: it meets the comment if and only if no row that decodes comes
  from a known relation outside the outbox; `AnotherTableYieldsAJob` is such a row, for every name outside. The outbox is
  a set of names, because the publication (sql/004_create_publication.sql) leaves rows under the names of their partitions.
- The README calls `MaxBatchSize` the maximum number of jobs per submit (README.md:167); the field's comment calls it
  the flush trigger (driver.go:39-43), which is what the code does. `BatchSize.BatchExceedsExactly`: given the sizes of the
  transactions of a stream, some session over them submits more than `MaxBatchSize` at once if and only if some
  consecutive ones stay below it and exceed it with the next; `ABatchCanExceedTheSize` is the simplest case. With
  at most one row a transaction the README is right (`Fold.SingleRowsNeverExceed`).
- `flushBatch` says no row is ever lost (driver.go:594-595). That holds of the rows it is given
  (`DeadLetters.EveryInsertDecided`). Of the rows received, `Messages.DroppedExactly` says which never get there: those whose
  relation is unknown, and those that do not decode under it. A Relation message that does not decode drops no row by
  itself: rows are read under the last one of that id that did decode, and have no job only when there was none
  (`Messages.RowsFollowTheLastRelation`) or they do not decode under it.

Two more things are easy to miss. The cursor follows a last transaction without rows only as far as its position is
heard: `Progress.LastCommitIsReachedExactly` has the exact condition. When every Commit message is positioned at or past
the LSN it carries, the cursor always gets there (`Progress.PositionedCommitsAreReached`); the session that stays behind
(`Progress.EmptyLastCommitIsNotReached`) hears one positioned before its own LSN. And a
context cancelled during the reconnect wait leaves `isLeader` set (driver.go:386-388), while every other shutdown path
clears it; `DriverCode.Driver.RunLoop` does the same.

## Model

| member | source | states |
|---|---|---|
| Safety.AtLeastOnce | driver.go:436-686 | in every reachable state of any number of drivers, each row with a commit at or below the durable cursor was accepted, dead-lettered, or yielded no job; and the slot's confirmed position is at most max(its initial value, the cursor) |
| Safety.StepKeepsInv | driver.go:484-565 | every step of every driver keeps the invariant: crash, failed submit, ambiguous commit, late commit, idle advance, late flush |
| Safety.FlushNeverPassesCursor | wal.go:201-205 | no session's flush LSN, however stale the session, exceeds the durable cursor; nor does a cursor read before the slot was held |
| Safety.NothingMovesBack | cursor.go:36-49 | between any two states of any run, cursor and confirmed position never decrease and no dead letter disappears, under any rules |
| Safety.StepGrows | driver.go:669-686 | one driver's step only adds to the shared state and touches no other driver |
| Safety.IdlePersists | driver.go:495-502 | under the guard and the position assumption an idle advance passes settled rows only, and the session stays consistent |
| Safety.BatchPersists | driver.go:640-643 | a flush at the pending commit LSN passes settled rows only, even against a database others have moved |
| Safety.StartHolds | driver.go:436-461 | a session that starts at a cursor read earlier misses no unsettled row |
| Safety.LandingPersists | driver.go:669-686 | a commit that takes effect after its driver is gone, however late, still passes settled rows only |
| Counterexamples.SafeExactly | driver.go:495-507 | delivery holds in every run if and only if all three conjuncts of the idle guard are checked and positions are visible |
| Counterexamples.LosesPending | driver.go:577-579 | a run that loses a row when pending rows do not block the idle advance |
| Counterexamples.LosesBuffered | driver.go:577-579 | a run that loses a row when buffered rows do not block it |
| Counterexamples.LosesOpenTx | driver.go:577-579 | a run that loses a row when an open transaction does not block it |
| Counterexamples.LosesBehindLostBegin | driver.go:520-531 | under the full guard, an undecodable Begin and a position past its commit lose a row |
| Counterexamples.LosesUnsent | wal.go:133-157 | without any assumption on positions a keepalive alone makes the driver pass a row that was never sent |
| Begins.DecodedBeginsSuffice | driver.go:520-531 | delivery and slot safety in every run that loses no Begin, when a position reaches a commit only once the server has sent that transaction's Begin |
| Counterexamples.WritingAnOldPositionIsNothing | wal.go:211-213 | the fourth test of the guard is not about safety: writing a position not past the flush moves no position, and changes the database only by creating a missing cursor row at 0 |
| Counterexamples.TwoLeaders | driver.go:382-389 | with an exclusive slot, two drivers can both have isLeader set |
| Counterexamples.TwoDriversDeadLetterTwice | driver.go:640-642 | with two drivers, all rules kept and unique row ids, a holder that loses the slot between submit and commit makes a row appear twice in the dead-letter table: the single-driver theorem needs its premise |
| Counterexamples.LateCommitDeadLettersTwice | driver.go:682-684 | so does a single driver whose commit takes effect after it has restarted and read the cursor |
| SingleDriver.DeadLetteredAtMostOnce | driver.go:669-686 | one driver with unique row ids and no commit that lands late, across any crashes and sessions, never writes a second dead letter for a row |
| SingleDriver.NeverSubmittedAgain | driver.go:438-461 | once its cursor has reached a row, no later state of that driver holds it for submission |
| RepeatedIds.RepeatedIdIsNeverPassed | dlq.go:42-49 | in every reachable state of any number of drivers, the cursor is before a transaction that holds two rows with one id, unless one of the two was dropped |
| RepeatedIds.RepeatedIdIsReached | dlq.go:42-49 | a run receives such a transaction in full, and no answer to its batch is consistent |
| Containment.LostCommitIsContained | driver.go:520-565 | in every reachable state of a session, streaming or waiting to persist, buffered rows block the idle advance and lie ahead of every LSN the session can write; pending rows ship at an LSN not below their own commit |
| Containment.LostInsertIsContained | driver.go:534-543 | a step drops at most one row, the one whose insert was due, and leaves the rest of that session's rows alone |
| Refinement.DropsExactly | driver.go:534-543 | a reception drops a row if and only if that row's insert was due and what was received does not decode to it |
| Refinement.TurnIsSteps | driver.go:477-567 | one iteration of the loop, with any outcome, is a sequence of cluster steps of that driver alone, dropping exactly what it did not decode |
| Refinement.OpeningIsSteps | driver.go:436-461 | reading the cursor and starting at it are cluster steps that open the session |
| Refinement.SessionIsARun | driver.go:466-568 | a whole session, against any script the server may speak, is a run of the cluster, with the same dropped rows and the same leadership |
| Refinement.CodeDeliversAtLeastOnce | driver.go:466-568 | after a session every row at or below the cursor is accepted, dead-lettered, dropped before, or was received by it and not decoded; and the slot is not ahead of the cursor |
| Refinement.LoopIsARun | driver.go:357-389 | all sessions of one driver, however each ends, form one run of the cluster, which ends with the driver's leadership as the code leaves it |
| Refinement.LoopDeliversAtLeastOnce | driver.go:338-390 | the same over any number of reconnects, with a cursor no lower than it began |
| Refinement.FleetIsARun | driver.go:436-686 | the stages of any number of drivers (reading the cursor, starting at what was read, submit, persist, idle advance, reception, death), interleaved in any way and without exclusion, form a run of the cluster |
| Refinement.FleetDeliversAtLeastOnce | driver.go:436-686 | in every such interleaving, stale reads included, each row at or below the cursor was accepted, is dead-lettered, or was received by some driver and not decoded; and the slot is not ahead of the cursor |
| Refinement.FleetDeadLettersOnce | driver.go:669-686 | the code of a single driver, with unique row ids and no late commits, writes no row twice to the dead-letter table |
| Stages.UninterruptedIsTheTurn | driver.go:477-567 | stages that run without a break are the turn that the loop executes |
| Fold.SessionIsAFold | driver.go:484-565 | until its first error a session has submitted, in order, without splitting a transaction or repeating a row, exactly the decoded rows of the commits it received, except those pending; uncommitted rows are buffered and block the idle advance |
| Fold.BatchOvershootsByItsLastTransaction | driver.go:544-565 | every batch is consecutive whole transactions that together stay below MaxBatchSize, and one more behind them |
| Fold.SingleRowsNeverExceed | driver.go:559-565 | as long as no transaction brings more than one row, no batch exceeds MaxBatchSize |
| BatchSize.BatchExceedsExactly | driver.go:544-565 | for any sizes of transactions: some session over them submits more than MaxBatchSize rows at once if and only if some consecutive ones stay below it and exceed it with the next one |
| BatchSize.ABatchCanExceedTheSize | driver.go:559-565 | for every MaxBatchSize there is a session that submits one row more in one batch |
| Messages.RowsFollowTheLastRelation | wal.go:223-236 | a row is read under the last decoded Relation message of its id, however many did not decode since; with none it yields neither job nor error |
| Messages.DroppedExactly | driver.go:534-543 | a row yields no job if and only if its relation is unknown, the counts differ, or a non-null column does not decode |
| Messages.CommentHoldsExactly | wal.go:228-236 | parseInsert does what its comment says if and only if no decodable row comes from a known relation outside the outbox, whatever names make up the outbox |
| Messages.AnotherTableYieldsAJob | wal.go:228-236 | for every name outside the outbox, a row of that table that the code takes for a job |
| Fold.NoDecodedRowIsLost | wal_parser.go:194-209 | whatever Begins and Commits were lost, every decoded row is in a completed group or still open |
| Fold.GroupsAreTransactions | driver.go:544-554 | when every message decodes, the groups are the transactions themselves |
| Stream.TurnKeepsLoopHead | driver.go:484-565 | a turn keeps "deadline armed exactly when rows are pending" and "pending below MaxBatchSize", and never moves an armed deadline without a flush |
| Stream.DeadlinesAreArmed | driver.go:484-565 | the same at every loop head of every session |
| Stream.NextReceiveDeadline | driver.go:570-575 | the receive deadline is the earliest armed one |
| Stream.DeadlinesAreOneTimeoutAway | driver.go:474-558 | the standby deadline is one interval after the session began or the last report; the batch deadline is one timeout after the commit that found the batch empty |
| Stream.FlushIsReported | driver.go:640-648 | after a flush whose status is sent the slot has confirmed exactly the higher of what it had and the flush position; otherwise it stays |
| Stream.StandbyIsReported | driver.go:495-507 | the same of every standby deadline that does not end the session |
| Stream.KeepaliveIsAnswered | wal.go:133-146 | the same of a keepalive that asks and is answered; a session goes on after a keepalive if and only if none was asked for or the answer was sent |
| Stream.StoppedForGood | driver.go:487-504 | nothing happens after a session has returned |
| Progress.RunIsSteady | driver.go:484-565 | whatever the environment does, a session that has not returned has the cursor at or past every row that is neither pending nor buffered |
| Progress.StartIsSteady | driver.go:466-475 | a new session begins so, with every row it has decoded settled |
| Progress.RunIsSettled | driver.go:544-565 | in a session that has not returned every decoded row is still held, was accepted, or is dead-lettered |
| Progress.TurnRunsExactly | dlq.go:42-49 | a turn in which nothing fails goes on if and only if no batch it submits holds an id twice |
| Progress.TurnStopsExactly | driver.go:477-567 | a turn ends the session if and only if it is cancelled, a flush that is due is not answered consistently or not committed, the standby deadline fails to write or report, or the reception fails; a status lost behind a flush does not end it |
| Progress.PositionsExactly | wal.go:133-157 | in a session that has not returned, the received position is exactly the highest one heard and the pending commit exactly the highest decoded one, counted from where it began |
| Progress.TurnReducesWork | driver.go:477-567 | a turn that goes on receives the next message, flushes the batch, or uses up one of the timeouts and keepalives in between: the measure strictly decreases |
| Progress.DrainsExactly | driver.go:477-567 | against any environment that has stopped failing, a session drains if and only if no batch it submits holds an id twice; then it has received exactly what was due, in order, and nothing is pending |
| Progress.DistinctIdsDrain | sql/001_create_outbox.sql:2 | with distinct ids it always drains |
| Progress.CursorExactly | driver.go:495-507 | over all scripts, at an idle standby deadline the cursor is exactly the highest of where it was, what was heard, and what was in flight, and at or past the commit of every transaction that brought a row; and the slot has confirmed the flush position, which is past all of those commits and past what was heard |
| Progress.CursorCatchesUp | driver.go:495-507 | after a drain, at the next standby deadline, the same equality, the same bound by the commit of every transaction that brought a row, and the same confirmation, over exactly the events that the messages due decode to |
| Progress.EverythingDueIsSettled | driver.go:477-567 | end to end, with distinct ids: everything due is received, every decoded row is accepted or dead-lettered, the cursor and the slot have passed the commits that brought them, and the cursor the last commit if commits are positioned at or past their LSN |
| Progress.PositionedCommitsAreReached | wal.go:149-157 | when every Commit message is positioned at or past the LSN it carries, the cursor is at or past the last decoded commit after any idle standby deadline |
| Progress.LastCommitIsReachedExactly | driver.go:495-507 | the cursor reaches the last decoded commit if and only if it was there, its position was heard, or a commit as high came with rows of its own or behind pending ones |
| Progress.EmptyLastCommitIsNotReached | driver.go:544-565 | a session that hears an empty transaction whose Commit is positioned before its own LSN, and passes its standby deadline with the cursor still at 0 |
| Progress.FriendlyCooperates | driver.go:619-643 | environments that have stopped failing exist |
| Session.WireTellsTheTruth | wal.go:172-199 | after the replication library's rule that a zero flush becomes the write position, the server still hears exactly the flush position; the write position is the higher of received and flushed, and zero before anything is flushed |
| Session.PlainStatusLiesExactly | wal.go:174-188 | without the all-zero case the server would be told of an unpersisted position if and only if nothing has been flushed and something received |
| Session.PersistRaisesCursor | cursor.go:36-49 | the guarded upsert leaves the larger of the old and the new position, whatever was there, in a row that then exists, and the letters behind the earlier ones |
| Server.FirstAfter | wal.go:96-102 | a start at an LSN begins at the first transaction that commits after it, and skips exactly the others |
| DriverCode.Database.ReadCursor | cursor.go:14-34 | the stored position, or 0 when there is no row |
| DriverCode.Database.FlushTx | driver.go:669-686 | dead letters and cursor move together or not at all: both on a commit that is reported, both on one that takes effect and is reported as failed, neither on a rollback |
| DriverCode.ToJobs | wal_parser.go:101-111 | job i parses back to row i's id and has row i's producer, type, payload, run time, trace and shadow mark, each in its own field |
| DriverCode.WalConsumer.StartStreaming | wal.go:86-110 | both positions start at the cursor |
| DriverCode.WalConsumer.SendStandbyStatus | wal.go:163-199 | the slot confirms exactly the flush position if the status was sent, and never moves back |
| DriverCode.WalConsumer.SetFlushLSN | wal.go:201-205 | the flush position never moves back |
| DriverCode.WalConsumer.ReceivedPosition | wal.go:138-156 | the received position never moves back |
| DriverCode.WalConsumer.SetRelation | wal.go:223-226 | the relation of this id gets this name and these columns; no other changes |
| DriverCode.WalConsumer.ParseInsert | wal.go:228-236 | neither job nor error for an unknown relation, the job of a row that decodes, and the error of one that does not |
| DriverCode.Driver.FlushBatch | driver.go:596-667 | submit, map, persist, then raise the flush position and report: the objects end in the state the specification gives for each outcome; the slot has confirmed the flush position when the status was sent, and has not moved otherwise |
| DriverCode.Driver.StandbyTick | driver.go:495-507 | the idle advance and the report, in that order, with each way to fail; without an error the slot has confirmed the flush position |
| DriverCode.Driver.ReceiveMessage | wal.go:115-161 | the position moves before the message is looked at, to the highest heard; a keepalive that asks and is answered leaves the slot confirmed up to the flush position |
| DriverCode.Driver.TakeMessage | driver.go:529-557 | the switch over decoded messages, on the loop's locals |
| DriverCode.Driver.OnMessage | driver.go:520-566 | a message and the flush its commit may trigger |
| DriverCode.Driver.BatchTick | driver.go:484-494 | the flush of an overdue batch |
| DriverCode.Driver.Iterate | driver.go:477-567 | one iteration equals one turn of the specification |
| DriverCode.Driver.ProcessWALStream | driver.go:466-568 | the loop computes the fold of its script and returns its first error |
| DriverCode.Driver.RunOnce | driver.go:436-462 | a session starts at the durable cursor; a failed start changes nothing |
| DriverCode.Driver.RunLoop | driver.go:338-390 | every attempt up to the first shutdown is made, each session from the cursor the one before has left and its batches behind the earlier ones; leadership, database, slot and submitted batches end as the last of them leaves them |
| DriverCode.AttemptsAreALife | driver.go:357-433 | the attempts are made one after another, none is left out, and the loop ends after an attempt if and only if it is shut down, cancelled in the wait, or still streams |
| DriverCode.LeadershipExactly | driver.go:357-389 | a driver leads if and only if it led at the start or has streamed, and neither a busy slot nor a shutdown came since |
| DeadLetters.MapResults | dlq.go:37-86 | succeeds if and only if the answer is consistent; then it writes down the rejections, in the order of the answer, one letter each; an error names a real cause |
| DeadLetters.IndexInserts | dlq.go:42-49 | succeeds if and only if the ids are distinct, and indexes exactly the inserts |
| DeadLetters.EveryInsertAnswered | dlq.go:37-62 | equal lengths, no duplicates and no strangers leave no insert unanswered (pigeonhole) |
| DeadLetters.AnswerableExactly | dlq.go:42-49 | a batch has a consistent answer if and only if its ids are distinct |
| DeadLetters.EveryInsertDecided | dlq.go:53-85 | every insert is either accepted or dead-lettered, never both |
| DeadLetters.LettersAreTheRejections | dlq.go:64-83 | the letters are exactly the rejections: each has the fields of the insert it answers, the reason given or "unspecified", and the characters among the first 4096 bytes of the error text, which for valid text are its longest prefix that fits |
| DeadLetters.LettersAnswerInOrder | dlq.go:51-85 | letter i is what the i-th rejection of the answer is written down as |
| DeadLetters.LettersAreDistinct | dlq.go:51-57 | no insert is dead-lettered twice by one answer |
| DeadLetters.LetterIsSound | dlq.go:68-83 | a letter belongs to an insert of the batch and to a rejection of that same insert, has a reason, and a valid bounded message |
| DeadLetters.ReorderedAnswerIsConsistent | dlq.go:34-36 | the order of the answer decides only the order of the letters |
| Utf8.TruncateIsLongestFit | dlq.go:88-96 | the result is valid UTF-8 of at most max bytes, and for valid input the longest whole-character prefix that fits |
| Utf8.TruncateLeavesOutExactly | dlq.go:88-96 | for text that is not valid, exactly the bytes at which no character starts are left out of its first max bytes |
| Utf8.ValidMeansCharacters | dlq.go:95 | validity is the grammar of section 4 of RFC 3629 |
| Utf8.ScanIsGrammar | dlq.go:95 | the bytes that pass for one character are exactly the characters of section 4 of RFC 3629 |
| Decimal.FormatThenParse | wal_parser.go:127-132 | every 64-bit id survives its decimal text |
| Decimal.FormatInjective | wal_parser.go:101-103 | correlation ids are equal if and only if row ids are |
| Decimal.FormatIsPlain | wal_parser.go:101-103 | a correlation id is digits without a leading zero, behind a minus sign exactly when the row id is negative |
| Decimal.ParseFailsExactly | wal_parser.go:127-132 | a text is no id if and only if, behind one optional sign, it has no digits, anything but digits, or a value that does not fit 64 bits |
| Decimal.SignAndZeros | wal_parser.go:127-132 | a plus sign or a leading zero does not change the id |
| Rows.ParseInsertColumns | wal_parser.go:114-163 | the loop computes the columns' values in order and fails at the first that does not decode |
| Rows.ParseFailsExactly | wal_parser.go:120-160 | with equal counts a row is dropped if and only if some non-null id, timestamp or payload of its own does not decode |
| Rows.FieldHoldsItsColumn | wal_parser.go:119-160 | each field has the value of the last non-null column of its own name, and its zero value without one; columns of other names leave no trace |
| Rows.ToJobCarries | wal_parser.go:101-111 | a job has the plain decimal text of the row id and every other field of the row but its creation time, each in its place |
| Rows.ByteaIsHexOrItself | wal_parser.go:165-172 | text without \x in front is the payload itself; behind it, pairs of hexadecimal digits of either case decode to what encodes to them, and anything else fails |
| Rows.ByteaRoundTrip | wal_parser.go:165-172 | every payload survives the text form of BYTEA |
| Rows.InsertRoundTrip | sql/001_create_outbox.sql:1-10 | every row of the table decodes back to itself, given that its timestamps survive their text form |
| Calendar.DateOfIsRight | partition.go:264-266 | the date of a day number is a valid date with that day number |
| Calendar.DateRoundTrip | partition.go:295-307 | a valid date is the date of its day number |
| Calendar.DayNumberIsAnOrder | partition.go:278 | day numbers order dates by year, month and day |
| Calendar.MonthsAsInTheCalendar | partition.go:264-266 | months begin on the days of the civil calendar, with its rule for leap years written out |
| Calendar.YearsAsInTheCalendar | partition.go:264-266 | day 0 is the first of January of year 1, and each year begins on the day after the one before it |
| Names.NameRoundTrip | partition.go:264-307 | parsing the name of a whole-minute bound in the years 0 to 9999 gives it back |
| Names.ParsedIsPrinted | partition.go:295-307 | the parser accepts nothing but the names the printer makes of whole-minute bounds in the years 0 to 9999 |
| Names.NamesCollideExactly | partition.go:264-266 | two bounds share a name if and only if they fall into the same minute |
| Names.NameOrderIsTimeOrder | partition.go:274-278 | string order of names is the order of their minutes, so the sort is oldest first |
| Names.NameSpellsItsBound | partition.go:264-266 | a name is the prefix, "_jobs_", the digits of year, month and day, an underscore, and the digits of hour and minute of the bound |
| Names.NameOfAnAfternoon | partition.go:264-266 | the partition of prefix "billing" that begins at 14:00 on 16 February 2026 is billing_jobs_20260216_1400 |
| GridTime.TruncateIsFloor | partition.go:86 | Truncate gives the last multiple not after its argument |
| GridTime.CellsAre | partition.go:91 | a pass visits exactly the grid points from its start to before its end |
| Maintenance.InterleavingKeepsInv | partition.go:84-208 | no transaction of any interleaving by any drivers rolls back, leaves the grid, or adds an orphan |
| Maintenance.RegisteredIsAttached | partition.go:109-207 | from a registry without orphans, registered partitions stay equal to attached tables, on the grid and pairwise disjoint |
| Maintenance.RangesAreDisjoint | partition.go:115-120 | differently named attached tables never overlap |
| Maintenance.CreateKeepsInv | partition.go:109-137 | a create succeeds, whether or not the name is registered or attached, registers exactly its cell and attaches exactly its table |
| Maintenance.DropKeepsInv | partition.go:149-208 | a drop finds every expired partition attached and removes exactly those, entries and tables, and nothing else |
| Maintenance.CreateAdoptsOrphan | partition.go:115-132 | an orphan table becomes registered by a create of its own cell |
| Maintenance.WindowIsCovered | partition.go:84-163 | after any transactions of any drivers that include the creates of a pass at n1, in any order, with no drop past the cutoff of n2, every instant from max(n1 - interval, n2 - retention) to n1 + lookAhead is in exactly one registered partition |
| Maintenance.WindowIsKept | partition.go:84-163 | of such transactions, with retention of at least interval + (n2 - n1), none drops a partition of the create window |
| Maintenance.PassVisitsExactly | partition.go:84-91 | a pass visits exactly the cells of the grid that end after now - interval and begin before now + lookAhead |
| Partitions.GridIsSoundExactly | partition.go:264-266 | names tell the cells of a grid apart if and only if the interval is at least a minute |
| Partitions.DriverWindow | partition.go:84-208 | the coverage theorem and registered-equals-attached for the driver's own names, with any whole-minute interval |
| Partitions.CreateThenDrop | partition.go:43-54 | a whole create pass and the drop behind it leave each instant of the window in exactly one partition, and add no orphan |
| Partitions.DriverCreatesThenDrops | partition.go:43-54 | the same for the driver's own names from a registry without orphans: metadata and attached tables are then equal |
| Partitions.PartitionDb.RunMaintenance | partition.go:43-54 | the drop follows a create pass that failed as well as one that succeeded; the pass succeeds if and only if the database does not fail it, the drop if and only if it commits; with the drop nothing expired is left, registered or attached, every entry and table missing had expired, and with both the window is covered |
| Partitions.PartitionDb.CreatePartitions | partition.go:84-146 | the pass succeeds if and only if the database does not fail before its last cell, and adds the cells before the failure and nothing else |
| Partitions.PartitionDb.EnsureCell | partition.go:96-137 | one iteration, existence check included, equals one create transaction |
| Partitions.PartitionDb.DropExpired | partition.go:149-208 | all expired partitions go, their tables with them, and nothing else; or nothing changes |
| Partitions.PartitionDb.CreateInitial | cmd/pglg-setup/main.go:223-246 | setup's two statements leave the current instant in exactly one registered partition and keep the invariant; dying between them leaves at most that one orphan |
| Replica.SelectExpired | partition.go:273-293 | the names whose own text has expired, once each, in name order, with the upper bound the text gives |
| Replica.NameExpiryIsMetadataExpiry | partition.go:160-163 | on the grid, expiry by name selects exactly what the SQL predicate selects at the same cutoff |
| Replica.SelectionIsOldestFirst | partition.go:268-292 | on the grid the selection is the expired tables with their real bounds, oldest first |
| Replica.ReplicaDropsOnlyBehindApply | partition.go:393-399 | a replica drops a range if and only if it ends by min(last message, now) - retention, and then the primary's cutoff has passed it too |
| Replica.ReplicaDb.Create | partition.go:309-336 | adds the tables of a prefix of the pass that the listing does not name, all of them unless a statement fails, and succeeds then; keeps every other; no new range meets an attached one |
| Replica.ReplicaDb.DropExpired | partition.go:367-429 | drops exactly the selection in one transaction; with an unknown apply position it succeeds and drops nothing, and nothing changes on a failure |
| Replica.ReplicaDb.CreateRange | cmd/pglg-setup/main.go:249-272 | an empty range is an error; otherwise it succeeds if and only if no statement fails, counts the hours it has seen to, and every hour before a failure has its table, and nothing else is added |
| Replica.BackfillCellsAre | cmd/pglg-setup/main.go:249-257 | setup's range is exactly the whole hours that end after the start and at or before now + 13h |
| Replica.BackfillMeetsTheWindow | cmd/pglg-setup/main.go:249-272 | for a start at or before now - 1h setup's range holds every cell of the 12-hour create pass at the same time |
| Replica.ReplicaDb.OnboardThenPass | partition.go:309-365 | after setup has succeeded the driver's create pass over a fresh listing succeeds and changes no table |

## Left out

- Network, TLS, connection pools, gRPC and SQL text: the database is a set of atomic transactions, a submit is any answer or failure. The placeholder list of `insertDLQRows` is SQL text.
- Raw pgoutput decoding: it is in the replication library, which is not part of this model. Messages arrive decoded, or as one that did not decode.
- Timestamp layouts of `parseTimestamp`: a text is an instant or it is not, by a function that is a parameter.
- LSNs are unbounded naturals and instants unbounded integers: neither 64-bit LSN overflow nor the range of Go durations is modelled.
- Slices of Go that share memory (`pendingInserts[:0]`, `buf.inserts[:0]`) are sequences by value: aliasing is not captured.
- Refinement.FleetIsARun: a reception with the submit it triggers, and a commit with the status report behind it, are one stage each; late commits are steps of `Cluster` only. Every theorem of `Safety` covers both.
- Refinement.LoopIsARun: a process that is killed is not part of the loop; death at any point is an act of the fleet and a step of `Cluster`.
- Progress.DrainsExactly: equal ids in different batches do no harm, so which batches repeat an id depends on timing; only a repetition inside one transaction is stated without it (`RepeatedIds`).
- Partitions.PartitionDb.CreatePartitions: the interleaving of several drivers within a pass is the business of `Maintenance`, where creates and drops of all drivers mix freely.
- Names.NameRoundTrip: years from 10000 on, whose names have more digits, and the server's limit on identifier length.
- Replica.SelectExpired: `sort.Strings` is sorted insertion, which gives the same order on distinct names.
- Partition bounds are exact instants: the SQL literals carry whole seconds, which is the same for whole-minute intervals only.
- The goroutine that triggers maintenance (ticker, wake-up, leader test): maintenance passes happen at any time, by any driver.
- Statsd, logging, the leader heartbeat and `Role`: no effect on protocol state.
- Configuration defaults, validation and environment reading; reconnect backoff and jitter: a retry comes after any delay.
- Dead-letter retention: rows of the dead-letter table are taken to outlive the run.
- The benchmark tool, and setup's flags, privilege checks, SQL files and destroy.
