# ghostline, verified

ghostline keeps terminal sessions alive across clients and across upgrades of
its own daemon. This project models the parts of it that carry its hardest
promises and proves those promises in Dafny 4.11. `dafny verify dfyconfig.toml`
checks the whole project.

## What is modelled

**The rolling upgrade** (`Handoff*.dfy`) is a step system. One source server
holds a hub of sessions and its lifecycle lock; under each session runs a copy
loop with its migration tickets, its operation gate, its PTY queue and its log;
any number of admin connections are open at once, each with a handler in the
source and a target process at the other end, or some other client that sends
whatever it likes. Every atomic action of every party is a step, and any
enabled step may come next: a timeout, a write that fails on either side, a
lost reply, a disconnect and a crash are steps like others. `HandoffState` holds the state,
`HandoffSteps` the steps, `HandoffInvariant` what holds in every reachable
state; `HandoffSource`, `HandoffHandler`, `HandoffServed`, `HandoffTarget`,
`HandoffAdopting`, `HandoffKeeps`, `HandoffTargets`, `HandoffCommit` and
`HandoffHistory` prove it step by step, and `HandoffTheorems`, `HandoffWhole`,
`HandoffOwnership` and `HandoffLostReply` state what follows for every run.
`HandoffAnswers` says what each request is answered and when, `HandoffService`
that nobody is stuck and that a session is served again after a commit as after
an abort, and `HandoffAbort` shows a run of an abort. The
flags `panicked` and `broken` of the state record an unlock of a lock that is
not held and the branch the commit handler calls unreachable; both are proved
never set.

**The generational output log** (`OutputModel`, `OutputRuns`, `OutputReader`,
`OutputLooks`, `OutputSizes`, `OutputCalls`, `OutputStore`) is modelled twice: as a value with its operations, compared with
a plain history of bytes tagged with the size in force, and as the objects with
their loops, proved against those operations. Readers pin files while writers
rotate and prune, between their calls and in the middle of one.

**The output side of a session** (`CheckpointModel`, `SessionOutput`) puts the
log, the terminal and the PTY behind the output lock, with the child writing to
the PTY between any two rounds of a drain. The terminal emulator is the sequence
of PTY bytes fed to it since the process took over, and the grid it is set to.

**The streaming scanners** (`QueryScan`, `QueryReplies`, `QueryAnswers`,
`QueryResponder`, `SemanticScan`, `TerminalFeed`) are the terminal-query responder and the OSC 133
marker scan. The final byte of a CSI sequence is in the range 0x40 to 0x7E of section 5.4 of
ECMA-48.

**The wire layers** (`WireFrames`, `WireStreams`, `BlobTransfer`,
`AdminTransport`, `VtEnvelope`, `CursorText`) are the frames with raw payloads,
the pulled blobs, the admin socket with out-of-band descriptors, the terminal
state envelope and the text of cursors. JSON is any codec that gives a header
back and puts no newline into its encoding (control characters are escaped,
section 7 of RFC 8259); frames of the admin socket hold no NUL for the same
reason. The digest of the envelope is any function to 32 bytes.

## What turned out not to hold, and exactly when it does

- "Exactly one owner" fails when the answer to a commit is lost: the source has
  let go and the target closes what it prepared. At any moment of any run a
  session given to a target has an owner if and only if that target has by then
  read the answer to its commit and has not crashed (`OwnedIffAnswerRead`). From
  the step that loses the answer on, nobody ever owns the session again
  (`LostAnswerOrphans`, with the run `ReplyCanBeLost` and its happy twin
  `ReplyCanArrive`). There are never two owners.
- `docs/rfc/0002-serve-rolling-upgrade.md:77-78` and the comment at
  `server.go:302-305` say that a child exiting during preparation makes its
  ticket unstable and aborts the batch. In the code a ticket that was answered
  as prepared stays stable until the decision, because its copy loop is blocked
  on it, so the preflight of a commit never fails (`PendingSettled`,
  `FallbacksNeverTaken`). The model follows the code.
- The retry at `migrate.go:636-650`, meant for older sources, is never answered
  with a session by this source (`ReceiveRetrying`).
- A pinned reader stops at the limit it last saw. It has a gap if and only if it
  left some generation that it had last seen before its final size
  (`ReadsInOrder`), which takes a generation that grows and is rotated and pruned
  between two of its looks (`AttentiveReaderMissesNothing`,
  `StaleLimitLosesTail`).
- `output.go:113-116` says that a sized read never spans a resize and reports a
  new size before any byte produced for it. A finished prune drops the marks of
  the generations it removes (`output.go:393-400`), also of one whose file a
  reader still has open, and that reader then gets the bytes of several sizes in
  one chunk, as of unknown size, with no report (`PrunedSizesAreLost`). A sized
  chunk is of the size returned with it if and only if its generation is
  retained, or its marks are, or all its bytes are of unknown size
  (`SizedReadsAttributed`); marks are lost only to a finished prune
  (`MarksGoByPrune`, `WrongOnlyAfterPrune`), and while they are kept the report
  comes first (`BytesFollowTheirReport`).
- Query scanning depends on chunking in exactly two cases (`CutMattersIff`): a
  CSI of more than 256 bytes dropped and then completed to a query, and a colour
  query cut between ESC and backslash. An OSC dropped at 4096 bytes never
  matters, and the leftover never depends on chunking.
- A raw response whose header is replaced for its length is still followed by
  its data, which the replacement does not declare. The reader stays in step if
  and only if the header fitted or there was no data (`RawResponseInSyncIff`,
  with a codec that shows the failure in `ReplacedHeaderOutOfStep`). The two
  callers, `server.go:605` and `server.go:694`, send headers of a few fields,
  far below the limit, so nothing in this program meets the failing case.
- `session.go:268-270` says that the size of an atomic state is both the one its
  payload was captured at and the one output from its cursor is produced for.
  The second half holds while the log is open (`TakeCheckpoint`). The first
  fails after a resize that the PTY refuses, which leaves the terminal at the new
  grid and the session at its old size (`RefusedResize`). A resize reaches the
  terminal if and only if it asks for a valid size and its drain, judged from the
  log, the PTY and what its rounds meet, comes to no chunk that the log refuses
  (`Resize`, by `Refuses`). After any sequence of operations the size of an
  atomic state is its payload's grid if and only if the last resize that reached
  the terminal was accepted by the PTY or asked for the size then in force, or
  there was none (`TakeCheckpoint`, by `LastFits`).
- A cursor that the program can hold but not print back (generation 0 with an
  offset, or an offset from 2^63 on) is excluded exactly by `Printable`
  (`RoundTripIff`).

## Model

| member | source | states |
|---|---|---|
| `HandoffTheorems.StepInv` | server.go:126-381 | one step of any party (child, client, copy loop, handler, target, another admin client, crash) keeps the whole invariant of the handoff |
| `HandoffTheorems.RunInv` | server.go:126-381 | the invariant holds at every moment of every run, from an empty server on |
| `HandoffTheorems.NeverTwoReaders` | process.go:226-275 | in no reachable state can two different processes read one PTY, counting copy loop, handoff drain, resize drain and every adopting target |
| `HandoffTheorems.ReaderOwns` | process.go:490-524 | whoever reads a PTY owns it: the source only while no commit gave the session away, a target only what was given to it |
| `HandoffTheorems.ReaderNeverChanges` | migrate.go:701-713 | once an adopting process has read a PTY, no other process reads it in the rest of the run |
| `HandoffTheorems.PublishesAllOrNothing` | migrate.go:694-707 | a target publishes nothing, or exactly the inventory frozen for it, each name once and each session given to it |
| `HandoffTheorems.InventoryWasListed` | server.go:157-181 | that inventory is the whole hub, each name once, as one of the connection's granted lists found it and locked it, an empty hub included |
| `HandoffTheorems.PublishesFrozenHub` | migrate.go:701-707 | so what a target publishes is, in the listed order, the whole source hub as its list froze it |
| `HandoffTheorems.HubFrozen` | hub.go:307-324 | while a batch holds the hub lock, nothing enters the hub and only the end of that batch's commit takes names out, exactly those committed |
| `HandoffTheorems.PendingSettled` | server.go:208-226 | between requests every pending ticket is stable, undecided and without error, and its copy loop is blocked on it or already done |
| `HandoffTheorems.CommitIsAccepted` | server.go:281-332 | a commit of distinct pending names always passes its preflight and resolves exactly those names |
| `HandoffTheorems.CommitDecides` | process.go:490-503 | every decision of a commit is to commit, for a ticket without error |
| `HandoffTheorems.CommitEnds` | server.go:331-366 | when a commit's resolves are over, every named session is given to that connection, its copy loop has stopped for good and its name is out of the hub |
| `HandoffTheorems.FallbacksNeverTaken` | server.go:306-354 | the abort after a failed preflight and the branch called unreachable are never taken |
| `HandoffTheorems.BytesConserved` | process.go:348-380 | what a child wrote is, in order, what was recorded, was lost to a failed log, is being recorded, and still waits in the PTY; without a log failure nothing is lost |
| `HandoffTheorems.NativeContinues` | process.go:529-606 | after a commit with native adoption the target's screen and log index are those of everything recorded since the session began, and what is left of the child's output follows it |
| `HandoffTheorems.GateDiscipline` | process.go:443-524 | a session's gate is held exactly while one begun migration is unfinished, every begun migration is finished once, and the connection that began it holds the hub lock |
| `HandoffTheorems.LockDiscipline` | server.go:137-150 | the hub lock is held exactly by the frozen handler, is never released twice, and is free together with every gate once no handler is frozen |
| `HandoffService.AbortResumes` | process.go:233-239 | once the copy loop has seen that an orderly handoff was aborted it runs again, and the source may read the PTY as soon as there is anything to read |
| `HandoffService.CopierEndsIff` | process.go:226-275 | a copy loop ends if and only if its PTY does, its log fails, or the handoff it waits for failed to settle or was committed |
| `HandoffService.CopierSeesIff` | process.go:228-228 | a running copy loop can turn to a ticket if and only if it is the current one, of a live child and undecided |
| `HandoffService.DrainSettles` | process.go:232-233 | the end of a drain makes its ticket stable, as failed exactly if the drain failed, and only a failed append ends it early |
| `HandoffService.ExitSettles` | process.go:180-190 | a copy loop that has ended settles a ticket nobody decided as failed and aborted, and leaves a decided one alone |
| `HandoffService.CopierGoesOnIff` | process.go:226-275 | while the source is up a copy loop can move unless it is done or blocked on an undecided ticket |
| `HandoffService.HandlerGoesOn` | server.go:126-381 | no handler is ever stuck before it is gone: it can move, or it waits for a copy loop that can |
| `HandoffService.CommitResumes` | migrate.go:701-713 | when a target reads the answer to its commit it runs a copy loop for exactly the sessions whose child lived at the handoff |
| `HandoffService.TargetMayRead` | process.go:240-254 | such a loop may read its PTY whenever there is anything to read |
| `HandoffService.TakerEndsIff` | process.go:254-274 | it ends if and only if the PTY does or its log fails |
| `HandoffService.TargetGoesOn` | migrate.go:285-318 | a target that is not over can make its next call, or give up waiting for an answer |
| `HandoffService.TargetListens` | migrate.go:285-318 | whatever arrives, the target can read it |
| `HandoffService.GrantIsUsed` | migrate.go:560-707 | a target that is granted its list, a session, a usable snapshot or its commit goes on with it |
| `HandoffService.GivenUpGivesBack` | migrate.go:541-557 | a target that gives its attempt up asks for the release of everything it had prepared |
| `HandoffAnswers.ListIsAnswered` | server.go:157-181 | list is granted, with the whole hub and the hub locked, if and only if the connection does not hold the batch, the hub is open and no session in it has a failed log; a refusal changes nothing |
| `HandoffAnswers.AdoptIsBegun` | server.go:184-210 | adopt begins a migration if and only if the connection holds the batch and the session is in the hub with its gate free |
| `HandoffAnswers.AdoptSettlesIff` | server.go:211-226 | the wait of an adopt can end with an answer if and only if the ticket is stable |
| `HandoffAnswers.AdoptIsAnswered` | server.go:211-236 | the answer is the session, with its descriptor if and only if the child lives, unless ticket or log failed; then the name is given up |
| `HandoffAnswers.SnapshotIsAnswered` | server.go:238-272 | snapshot is answered if and only if the connection began the migration of that session, and a native one is everything in its log |
| `HandoffAnswers.BatchIsAnswered` | server.go:274-332 | commit and abort are accepted if and only if the names do not repeat and the connection began the migration of each, and then resolve exactly those |
| `HandoffAnswers.ExitIsAnswered` | server.go:368-377 | exit is refused if and only if some session is under a migration the connection began; otherwise it is answered and the handler leaves |
| `HandoffAnswers.OtherIsRefused` | server.go:378-380 | any other method is refused and changes nothing |
| `HandoffAnswers.RequestTakenIff` | server.go:151-157 | a ready handler can take any request, except a list while another connection holds the batch |
| `HandoffAnswers.AbortEnds` | server.go:137-146 | when a walk that is no commit ends, each of its sessions is in the hub, with its gate free and still the source's, and is no longer held |
| `HandoffAnswers.EndIsAnswered` | server.go:361-363 | a commit or abort is answered with the number of sessions it resolved, an adopt that was given up with a refusal |
| `HandoffAnswers.LockChangesIff` | server.go:137-150 | the hub lock is taken exactly by a granted list and released exactly by the end of the cleanup or of an answered commit of everything held; an abort keeps it |
| `HandoffAnswers.OperableIff` | session.go:465-480 | clients can operate on a session of the hub if and only if the source is up and no batch holds the hub |
| `HandoffAnswers.StartableIff` | hub.go:130-160 | a session can be started if and only if the source is up, the hub open and free of a batch, and the name unused |
| `HandoffAnswers.HubOfClients` | hub.go:269-305 | a start adds exactly its name to the hub, a delete takes out exactly its own, a close takes out all |
| `HandoffAnswers.ClosedForGood` | hub.go:269-320 | once the hub is closed no session starts and no list is granted, and once the source is down it takes no step, in the rest of any run |
| `HandoffOwnership.NeverTwoOwners` | migrate.go:541-557 | a session owned by one target is owned neither by the source nor by another target |
| `HandoffOwnership.OwnedIffAnswerRead` | migrate.go:694-707 | at any moment of any run, a session given to a target is owned by someone if and only if that target read the answer to its commit in some earlier step and has not crashed |
| `HandoffOwnership.PublishedIffAnswerRead` | migrate.go:694-707 | a target is published if and only if it has read that answer and has not crashed: no other step publishes, and nothing but a crash takes it back |
| `HandoffOwnership.OrphanForever` | migrate.go:546-557 | a session whose target gave up after the decision has no owner then or at any later time |
| `HandoffOwnership.LostAnswerOrphans` | server.go:361-363 | from the step in which the answer to a target's commit is lost, no session the commit gave that target has an owner, whatever follows |
| `HandoffLostReply.ReplyCanBeLost` | migrate.go:694-700 | a run that reaches the end of a target's commit, loses its answer in a step that is shown, and leaves the target given up and the session it was given without an owner at every later moment |
| `HandoffLostReply.ReplyCanArrive` | migrate.go:694-713 | the same run with the answer sent and read, in which the target owns the session, reads its PTY and the hub lock is free |
| `HandoffAbort.AbortLosesNothing` | process.go:228-239 | a run in which the child writes while its session is paused, the target aborts, and the source ends up owning the session with all of it in its log |
| `HandoffWhole.CommitNamesAll` | server.go:281-336 | while a target's commit is resolved, what the handler holds is exactly what is being resolved, and that is the whole inventory; the handler holds the hub lock |
| `HandoffWhole.CommitTakesAll` | server.go:356-366 | at its end the source is left with no session in the hub and none pending, and the hub lock is free once the answer is out |
| `HandoffSource.CopierStepOk` | process.go:168-275 | every step of a copy loop keeps its session's gate, ticket, ownership and byte accounts |
| `HandoffSource.CopierStepKeeps` | process.go:226-275 | a copy loop never changes who owns the session or a decision already out, and leaves the log alone once it no longer reads |
| `HandoffSource.LockFree` | hub.go:322-324 | with the hub lock free nothing is pending, no migration is open and nothing in the hub was given away |
| `HandoffHandler.BegunOk` | process.go:443-474 | a session not under migration can begin one, whether its copy loop still runs or is done |
| `HandoffHandler.PendingIsStable` | server.go:208-226 | what a handler holds between requests passes the preflight |
| `HandoffHandler.BatchPasses` | server.go:281-332 | a batch that is not refused is resolved exactly as asked, name by name |
| `HandoffHandler.ChosenSession` | process.go:490-503 | a decision made in a walk is the one asked for and is recorded with its owner |
| `HandoffHandler.FinishedSession` | process.go:504-524 | finishing clears the ticket, releases a gate that is held, and reports no error in a commit |
| `HandoffHandler.EndedShape` | server.go:356-367 | what the end of a batch, a failed adopt or the deferred cleanup does to pending, hub and lock |
| `HandoffHandler.AdoptSource` | server.go:183-201 | the adopt request keeps the source's invariant, refused or begun |
| `HandoffHandler.AdoptAnsweredSource` | server.go:208-231 | so does its answer, with or without the descriptor |
| `HandoffHandler.ListSource` | server.go:157-181 | so does list, which freezes the hub or refuses |
| `HandoffHandler.ChosenSource` | process.go:490-503 | so does each decision |
| `HandoffHandler.FinishedSource` | process.go:504-524 | so does each finished resolve |
| `HandoffHandler.EndedSource` | server.go:356-367 | so does the end of each batch |
| `HandoffHandler.UnwindSource` | server.go:139-142 | so does the start of the deferred cleanup |
| `HandoffServed.WalkGrants` | server.go:331-336 | when the walk of its commit is over, everything a target prepared belongs to it and agrees with the log |
| `HandoffTarget.TargetFrame` | process.go:226-240 | a step that does not touch what a connection holds leaves its target right |
| `HandoffAdopting.AdoptUnderstood` | migrate.go:406-419 | the descriptor taken for an adopted session is that session's own, and the snapshot is asked for next |
| `HandoffAdopting.SnapshotUnderstood` | migrate.go:432-491 | a state built from the snapshot agrees with the session's log, natively or not |
| `HandoffAdopting.CommitUnderstood` | migrate.go:694-713 | the answered commit makes every prepared session the target's own before it starts reading |
| `HandoffAdopting.ReceiveRetrying` | migrate.go:636-650 | the compatibility retry of an adopt is never answered with a session: the name is still pending, so the attempt is skipped |
| `HandoffCommit.SentCommit` | migrate.go:694-697 | the commit goes out when nothing else is queued, and the handler holds everything it names |
| `HandoffCommit.ChosenIsKept` | server.go:331-336 | the session a commit decides is the one its own target prepared |
| `HandoffHistory.StepLater` | process.go:348-380 | no step shortens a log, takes back a loss, a finished migration or a given session |
| `OutputModel.ApplyKeeps` | output.go:249-459 | append, rotate, markSize, prune, close and reopening keep the log consistent with its history: bytes, marks in order, every retained byte described |
| `OutputModel.MarkKeeps` | output.go:406-442 | a new, replaced or collapsed mark changes no earlier byte's size |
| `OutputModel.PruneKeeps` | output.go:366-404 | a prune, finished or stopped by a failed removal, loses only generations before its cursor and no kept byte's size |
| `OutputRuns.MarksRefineTags` | output.go:444-459 | after any run, the size looked up at a retained byte is the one in force when it was appended, unknown before the first mark |
| `OutputRuns.SpanDescribes` | output.go:444-459 | the span found with it holds only bytes of that size and ends where the size changes |
| `OutputRuns.IssuedCursorsResolve` | output.go:306-330 | a cursor once returned resolves later to itself or to expired, never to invalid, and expires only through an accepted prune past its generation |
| `OutputRuns.HorizonMovedByPrune` | output.go:366-404 | which prune expired it |
| `OutputRuns.ResolveSays` | output.go:317-329 | a cursor other than the zero one resolves to itself if and only if its generation is retained and has that offset, to expired if and only if its generation is an earlier one no longer retained |
| `OutputRuns.StrayCursorsInvalid` | output.go:317-329 | in any run, a cursor past the end of its retained generation, of generation 0 or of one not yet opened is invalid |
| `OutputRuns.PruneLeaves` | output.go:378-391 | a finished prune leaves exactly the generations from its cursor on, with their bytes |
| `OutputRuns.PrunedCursorsExpire` | output.go:366-404 | from an accepted prune that finishes on, every cursor of an earlier generation is expired, whatever follows |
| `OutputRuns.ReopenOpens` | output.go:180-231 | the next process finds a log that has not failed as it was left, open and without marks |
| `OutputReader.ReadsInOrder` | output.go:532-623 | over any interleaving with writers a reader has delivered the log from its start to its cursor in order; nothing is missing if and only if each generation left behind was last seen at its final size, and one left short has been pruned |
| `OutputReader.AttentiveReaderMissesNothing` | output.go:550-557 | a reader whose generation is retained at each of its looks misses nothing |
| `OutputReader.FinishesAtEnd` | output.go:604-617 | end of file and the terminal error come only at the very end of a closed log |
| `OutputLooks.LooksAnswered` | output.go:549-617 | in any reading, each answer of a look, sized or not, is given if and only if it is due: expired only out of reach, waiting only at the very end of an open log, the end only there of a closed one, bytes or a failed open wherever there are bytes before the limit |
| `OutputLooks.DataFills` | output.go:579-597 | a look for bytes returns as many as the buffer has room for, the file yields and there are, none left back except by a sized look at the next mark |
| `OutputSizes.SizedReadsAttributed` | output.go:562-578 | in any reading, a sized chunk holds only bytes of the size returned with it if and only if the log still has the generation or its marks, or all its bytes are of unknown size; a known size is the one last reported, and a reader that waits, ends or moves on has been told the size at its cursor, even without any byte |
| `OutputSizes.PrunedSizesAreLost` | output.go:393-400 | a concrete run in which a generation is pruned under the reader that holds its file, and one sized chunk returns bytes of two sizes as of unknown size, with no report |
| `OutputSizes.BytesFollowTheirReport` | output.go:113-117 | in any run, at a look where the generation or its marks are kept, all bytes of the chunk are of one size, and if that is known it is the size that the reader's looks last reported |
| `OutputSizes.ReportedIsLast` | output.go:568-572 | what a reader holds as reported is what its last reporting look returned, with no other report since |
| `OutputSizes.MarksGoByPrune` | output.go:366-404 | of all operations on the log only an accepted prune that finishes makes it forget the sizes of a generation, and only of one that is gone |
| `OutputSizes.WrongOnlyAfterPrune` | output.go:562-578 | in any run, a sized chunk is wrong about its bytes only after such a prune took their generation away earlier in that run |
| `OutputReader.DataIsNext` | output.go:579-603 | a chunk is exactly the log's bytes at the cursor |
| `OutputReader.LeavesAtSeen` | output.go:604-610 | a generation is left only when complete, at the size last seen |
| `OutputReader.StaleLimitLosesTail` | output.go:552-557 | a concrete run in which a generation grows, is rotated and pruned between two looks, and the tail is lost |
| `OutputStore.OutputLog.constructor` | output.go:180-231 | opens a log at its active generation with no marks |
| `OutputStore.OutputLog.Append` | output.go:249-270 | extends the active generation by the data if and only if the log is open, the file takes all of it and the offset stays in range; otherwise nothing is added and the log is closed and, unless it was closed before, failed |
| `OutputStore.OutputLog.CurrentCursor` | output.go:272-280 | the end of the log unless it failed |
| `OutputStore.OutputLog.ResolveCursor` | output.go:306-330 | resolves a cursor to itself if and only if it lies in a retained generation, to expired if and only if its generation is an earlier one no longer retained, else to invalid; the zero cursor to the start of the least retained generation |
| `OutputStore.OutputLog.Rotate` | output.go:332-364 | opens the next generation, empty, if and only if the log is open, a number is left and the file is created, and carries the size in force into it |
| `OutputStore.OutputLog.Prune` | output.go:366-404 | succeeds if and only if the cursor is the start of a generation opened so far, the log is open and every earlier file can be removed, and then leaves exactly the generations from the cursor on, unchanged, with their marks; a failure removes only earlier ones and no mark |
| `OutputStore.OutputLog.RetainMarks` | output.go:393-400 | the filter keeps exactly the marks of retained generations, in order |
| `OutputStore.OutputLog.MarkSize` | output.go:406-430 | adds, replaces or drops a mark |
| `OutputStore.OutputLog.CollapseSizes` | output.go:432-442 | drops a repeated size at the end |
| `OutputStore.OutputLog.SizeSpan` | output.go:444-459 | the loop over the marks finds the size at a cursor and the next mark of its generation |
| `OutputStore.OutputLog.Close` | output.go:461-472 | closes the log once |
| `OutputStore.OutputSource.constructor` | output.go:282-304 | a new reader pins the file of its start |
| `OutputStore.OutputSource.Refresh` | output.go:549-558 | takes size and completeness from the index, or only completeness for a pinned file |
| `OutputStore.OutputSource.Bound` | output.go:563-578 | where a read must stop |
| `OutputStore.OutputSource.LookOnce` | output.go:540-617 | one pass of the read loop |
| `OutputStore.OutputSource.Read` | output.go:532-623 | the loop, with other parties at the log between any two of its passes and while it blocks, and with the reader closed or its context cancelled before any pass, returns what the call on values does; an empty buffer returns at once |
| `OutputCalls.CallContinues` | output.go:532-623 | such a call leaves the reader in order and returns exactly the bytes it delivers, none if it was closed or cancelled; it never answers between generations |
| `OutputCalls.CallEarned` | output.go:532-623 | such a call blocks or ends only at the very end of the log, brings bytes whenever it brings data and has room, and is given up only when asked to |
| `OutputCalls.CallsReadInOrder` | output.go:532-623 | all that any sequence of calls returns, with writers between and within them, is put together the log in order from the reader's start to its cursor |
| `CheckpointModel.CheckpointCovers` | session.go:520-542 | a checkpoint's bytes and the output from its cursor on are together everything recorded, each byte once, at any later time and across rotations, prunes and resizes |
| `CheckpointModel.CheckpointThenReader` | session.go:257-260 | a checkpoint and a reader opened at its cursor, then or later, join without gap or overlap: what the one held and the other delivered are everything recorded up to the reader's cursor, if and only if each generation the reader left was last seen at its final size |
| `CheckpointModel.ReaderToldSize` | output.go:563-572 | the first thing a sized reader opened at a checkpoint's cursor is told there and then is the size in force |
| `CheckpointModel.Splits` | session.go:520-542 | what lies between two cursors is what lies before and after any cursor between them |
| `CheckpointModel.AppendTakes` | process.go:254-262 | an append that succeeds extends what was taken by exactly its bytes |
| `CheckpointModel.RotateTakes` | session.go:587-598 | a rotation changes nothing of what was taken |
| `SessionOutput.SessionState.constructor` | process.go:567-606 | a process takes over with nothing fed yet; for a live session the log attributes what follows to the session's size, for an exited one it is closed |
| `SessionOutput.SessionState.Record` | process.go:254-262 | a chunk is fed only once it is recorded, so fed and recorded stay equal |
| `SessionOutput.SessionState.CopyRound` | process.go:240-273 | a round of the copy loop takes as many bytes from the front of the PTY as the read brings and records, tags and feeds them, unless the append failed and closed the log |
| `SessionOutput.SessionState.DrainOutput` | process.go:348-380 | however much the child writes meanwhile, a handoff drain moves less than its budget and one buffer; a clean one records, tags and feeds exactly what it took, in order, and ends with the PTY empty, the budget spent or the time up |
| `SessionOutput.SessionState.DrainUpTo` | process.go:385-411 | the drain loop shared with resize, with the child writing between its rounds: what was queued and what arrived is what was moved and what is queued; it fails on an append if and only if, from the log, the PTY and the rounds it is given, it comes to a chunk the log refuses; it stops short of its budget and its time only when the PTY is empty, a read failed or, if it is not patient, a read brought nothing |
| `SessionOutput.SessionState.Resize` | session.go:465-502 | the bytes drained by a resize are tagged with the session's old size, and the new size is the session's and the log's from there on exactly when the resize succeeds; an invalid size changes nothing; it reaches the terminal if and only if the size is valid and its drain comes to no chunk the log refuses, and terminal and session then agree if and only if the PTY accepts or the size was in force already |
| `SessionOutput.SessionState.TakeCheckpoint` | session.go:520-566 | a checkpoint or atomic state is exactly what was recorded from the takeover to its cursor, there is none once the log failed, and while the log is open its size is the one in force at its cursor, in the record and in the marks; after any operations its size is the grid of its payload if and only if the last resize to reach the terminal was accepted or asked for the size then in force |
| `SessionOutput.RefusedResize` | session.go:490-500 | a concrete atomic state whose size is not the grid its payload was captured on |
| `SessionOutput.SessionState.RotateOutput` | session.go:587-598 | a rotation keeps fed and recorded equal and, exactly if the log can rotate, returns the start of the next generation |
| `SessionOutput.SessionState.PruneOutput` | session.go:600-607 | so does a prune, which if it succeeds leaves exactly the generations from its cursor on |
| `QueryScan.CutLosesOnly` | query.go:105-159 | whatever is answered to a sequence, scanning in two chunks ends with the leftover of scanning at once and gives the same replies but for at most one |
| `QueryScan.CutMattersIff` | query.go:105-159 | the replies differ if and only if the first chunk ends in an unfinished CSI too long to keep that the second completes to a query, or cuts a colour query between ESC and backslash |
| `QueryScan.ChunkingMattersIff` | query.go:105-159 | the same for any number of chunks: the leftover never depends on chunking, the replies do if and only if some cut loses one |
| `QueryScan.LeftoverBounded` | query.go:125-152 | the leftover is a suffix of the input of at most 4096 bytes |
| `QueryScan.ColorQueryCanBeLost` | query.go:187-191 | a concrete colour query that the scan of the whole answers and the feed of its two chunks does not |
| `QueryReplies.LongQueryCanBeLost` | query.go:130-132 | a concrete device query, padded beyond the cap, that the scan of the whole answers and the feed of its two chunks does not |
| `QueryReplies.QueryAnswered` | query.go:122-142 | a CSI sequence behind plain bytes is handed to the replier whole and the scan goes on behind it |
| `QueryReplies.ColorQueryAnswered` | query.go:143-156 | an OSC ended by BEL behind plain bytes is recognized by its body alone |
| `QueryReplies.RepliesAreCsi` | query.go:200-248 | every fixed reply is exactly one complete CSI sequence, even when it repeats bytes of the query |
| `QueryAnswers.ReplyTells` | query.go:200-248 | a CSI sequence is answered if and only if it is one of the queries, and read back each reply says what was asked: status 0, cursor 1;1, the keyboard query itself, primary or secondary attributes, the mode asked for and 1, rows and columns in cells or scaled by 24 and 8 |
| `QueryAnswers.TranscriptAnswered` | query.go:105-163 | for any transcript of text, whole CSI and whole OSC sequences the replies are, in order, exactly what is owed for each, colour queries by their numbers included, and nothing stays pending |
| `QueryAnswers.BrokenControl` | query.go:123-129 | a CSI broken off by a control byte or DEL is not answered and the scan goes on at that byte |
| `QueryAnswers.BrokenCommand` | query.go:142-146 | so is an OSC broken off by a control byte, or by an escape without its backslash |
| `QueryAnswers.UnfinishedKept` | query.go:130-133 | an unfinished CSI stays pending up to 256 bytes and is dropped beyond |
| `QueryAnswers.UnfinishedCommandKept` | query.go:147-150 | an unfinished OSC stays pending up to 4096 bytes and is dropped beyond |
| `QueryResponder.CsiFinal` | query.go:167-178 | the loop finds the CSI's final byte, the byte that breaks it, or neither |
| `QueryResponder.OscTerminator` | query.go:182-198 | the loop finds the OSC's terminator, the byte that breaks it, or neither |
| `QueryResponder.IndexEsc` | query.go:109-116 | the first escape |
| `QueryResponder.Responder.AtFront` | query.go:121-157 | the decision at an escape |
| `QueryResponder.Responder.Feed` | query.go:105-159 | the feeding loop returns the replies and keeps the leftover of the scan, terminates, and never keeps more than 4096 bytes |
| `SemanticScan.MarkersInOrder` | semantic.go:50-78 | markers come in order, do not overlap, begin with the prefix and end just past the first terminator after their letter, and any exit status is below a million |
| `SemanticScan.NoMarkerMissed` | semantic.go:50-78 | a prefix outside every reported marker comes after the last one and behind an unterminated one |
| `SemanticScan.MarkersPlaced` | semantic.go:83-108 | each reported marker begins with the prefix and ends just past the first terminator after its letter |
| `SemanticScan.MarkersApart` | semantic.go:71-75 | each ends before the next begins |
| `SemanticScan.MarkerPlaced` | semantic.go:83-108 | one marker is where it says it is |
| `SemanticScan.ExitBounded` | semantic.go:113-136 | an exit status has at most six digits |
| `SemanticScan.ExitIff` | semantic.go:113-136 | an exit status n is found if and only if the payload is a semicolon and one to six digits that print n, zeros in front included, up to the end or the next semicolon |
| `SemanticScan.StatusRoundTrip` | semantic.go:129-129 | every status below a million is read back from its decimal digits |
| `SemanticScan.MarkerFound` | semantic.go:83-108 | a marker written behind text without escapes, ended by BEL or by ESC and a backslash, is the first one found, with its letter, status and end |
| `TerminalFeed.ParseExit` | semantic.go:113-136 | the digit loop parses the field between the semicolons, or nothing |
| `TerminalFeed.ParseAt` | semantic.go:83-108 | the terminator loop parses the marker at its prefix |
| `TerminalFeed.FindNext` | semantic.go:54-76 | each round of the search, which looks for the rarer suffix, finds the next marker of the prefix search and moves on, so the defensive branch is never taken |
| `TerminalFeed.FindMarkers` | semantic.go:50-78 | the search by suffix finds exactly the leftmost complete markers |
| `TerminalFeed.Terminal.Feed` | terminal.go:296-319 | the pieces fed are the chunk, each byte once, and each marker is acted on exactly when its last byte has been fed |
| `TerminalFeed.StatusApplied` | terminal.go:296-345 | a command-done marker with a status in such a chunk is acted on with exactly that status, once its last byte has been fed |
| `WireFrames.SizeTestIff` | client.go:340-342 | the writer's size test admits exactly the headers whose line the reader accepts |
| `WireFrames.RequestOkIff` | client.go:330-342 | a request can be sent if and only if its payload is at most 1 MiB and its header line fits a frame of 1 MiB |
| `WireFrames.ReadRequestIff` | rpc.go:339-364 | a request is read from a stream if and only if the stream begins with its frame: a line within the cap that decodes to a valid header of this protocol version, and the payload it declares |
| `WireFrames.ReadRequestFails` | rpc.go:339-364 | each way of failing tells what is wrong: too little so far, too long, not a header, or another version |
| `WireFrames.ReadResponseIff` | client.go:354-375 | a response is read if and only if the stream begins with the line of a valid header; an error carries neither result nor payload |
| `WireFrames.RawResponseOkIff` | rpc.go:291-300 | only data beyond 64 KiB keeps a raw response from being sent |
| `WireFrames.RequestRoundTrip` | rpc.go:339-364 | a request with any payload bytes is read back, with the rest of the stream untouched |
| `WireFrames.RequestsRoundTrip` | client.go:330-352 | any list of requests is read back in order with nothing left over |
| `WireFrames.HeaderRoundTrip` | client.go:354-375 | a response header that fits is read back |
| `WireFrames.AnswersRoundTrip` | rpc.go:291-311 | any list of responses whose headers fit is read back in order with nothing left over |
| `WireFrames.RawResponseInSyncIff` | rpc.go:291-337 | after a raw response the reader stands at the next frame if and only if the header fitted or there was no data |
| `WireFrames.ReplacedHeaderOutOfStep` | rpc.go:329-335 | a concrete codec, header and byte of data with which the reader is left in front of the data |
| `WireStreams.Reader.ReadLine` | rpc.go:374-390 | the line loop gives the outcome of the whole stream however the buffer cuts it |
| `WireStreams.Reader.ReadRequestFrame` | rpc.go:339-364 | reads a request frame or fails as specified |
| `WireStreams.Reader.ReadSlice` | rpc.go:377-378 | one buffered slice: up to the newline, a full buffer, or the rest |
| `WireStreams.Reader.ReadFull` | rpc.go:357-362 | exactly the declared payload or an error |
| `WireStreams.Writer.WriteRequest` | client.go:330-352 | writes a request frame, or nothing when it is too large |
| `WireStreams.Writer.WriteRawResponse` | rpc.go:291-337 | writes a raw response, header replaced when it is too large |
| `BlobTransfer.BlobServer.Read` | server.go:588-611 | one read appends its payload to what was sent before, to make a longer beginning of the blob; it is full unless it is the last, which is the one that reaches the end and closes the blob; an invalid size changes nothing |
| `BlobTransfer.Fetch` | client.go:745-790 | the client's loop ends against any server and returns what its specification does |
| `BlobTransfer.OnlyDeclaredSize` | client.go:768-788 | against any replies the client returns only data of the declared size, made of the chunks read up to the first end mark, after at most one read more than there are bytes |
| `BlobTransfer.EndDecides` | client.go:768-788 | the reply that ends the loop decides its result: a failure, a chunk too large or beyond the size, an early end, an empty chunk, or all the data |
| `BlobTransfer.TransferExact` | server.go:571-613 | against the real server it returns the server's bytes unchanged in max(1, ceil(n/65536)) reads |
| `BlobTransfer.Transfer` | client.go:745-790 | the two loops run against each other do so |
| `AdminTransport.Transport.Receive` | migrate.go:191-212 | a message's bytes and descriptor are kept, none lost |
| `AdminTransport.Transport.Buffered` | migrate.go:171-189 | finds the next frame in the buffer, past any padding |
| `AdminTransport.Transport.Read` | migrate.go:169-222 | returns the next frame of the unpadded stream whatever the messages are, and loses neither bytes nor descriptors |
| `AdminTransport.Transport.TakeFd` | migrate.go:224-271 | returns the first descriptor not yet returned, reading ahead without losing a byte of a frame |
| `AdminTransport.Use` | migrate.go:169-271 | any sequence of read and takeFD calls returns what the unpadded stream and the descriptors alone determine, so fragmentation, padding and the carrying message do not matter |
| `AdminTransport.FramesInOrder` | migrate.go:135-222 | for a stream of frames the reads return the frames in order and the takes the descriptors first in, first out |
| `AdminTransport.LongFrameRefused` | migrate.go:180-189 | a frame beyond 64 MiB is refused |
| `VtEnvelope.AcceptedIffWrapped` | terminal.go:856-883 | a state is accepted, yielding a payload, if and only if it is the wrapping of that payload and the payload is not empty |
| `VtEnvelope.EmptyRefused` | terminal.go:879-881 | the wrapping of the empty payload is refused as empty |
| `VtEnvelope.Layout` | terminal.go:856-864 | the wrapping is sixteen bytes of magic, the length with its low byte first, the digest of the payload, and the payload |
| `VtEnvelope.RefusedFor` | terminal.go:866-883 | which error a state is refused with |
| `VtEnvelope.WordRoundTrip` | terminal.go:859-859 | the little-endian length reads back |
| `VtEnvelope.BytesRoundTrip` | terminal.go:871-873 | eight bytes are the little-endian form of one number |
| `VtEnvelope.Wrap` | terminal.go:856-864 | the buffer filled by copying is the wrapping |
| `CursorText.RoundTripIff` | output.go:26-52 | parsing a printed cursor gives it back if and only if it is the zero cursor or its generation is from 1 to 2^64-1 and its offset below 2^63 |
| `CursorText.ParsedIff` | output.go:26-44 | text parses to a cursor if and only if it is v1 and two runs of digits that count its numbers, which fit, or both are empty |
| `CursorText.ParsedPrints` | output.go:26-52 | whatever text parses, leading zeros included, its cursor prints to text that parses to the same cursor |
| `CursorText.PrintedIsCanonical` | output.go:26-52 | of the texts that parse to a cursor the printed one is exactly the one without leading zeros |
| `CursorText.FormatIff` | output.go:46-52 | a run of digits is what its value prints as if and only if it has no leading zero |

## Left out

- The v0 handoff (spool replay), and the content of lossy recovery: a lossy state is one whose screen is not claimed to be the log.
- Real time: timeouts, deadlines and drain windows are steps or parameters that may come at any moment, so nothing is said about how long anything takes.
- Progress of finishMigration when a timeout decides a ticket the copy loop has not seen: the loop then skips the ticket and the wait ends only with the session; safety is proved, not progress.
- Sharing of the hub lock by readers: session operations are atomic steps taken while no batch holds the lock.
- Concurrent Delete on two handles of one name racing with Start, and rotate or prune through a handle of a session already handed over: not steps of the model.
- Process start, signals, reaping, foreground probing, polling and file input and output: files are byte sequences and the PTY is a queue.
- The terminal emulator, its snapshot encoding, grid repair and command capture: foreign code, kept as the bytes fed.
- Colour lookup and formatting of OSC 10 and 11 replies, and overflow of the pixel sizes in window reports.
- JSON itself, base64, and errors of marshalling.
- The public RPC dispatch, the managed client with its retries, environment merging, the command line and minimux: they would add only easy members.
- SessionOutput.SessionState.DrainUpTo: only the child acts between the rounds, since a resize holds the output lock throughout and every operation waits for the gate that a handoff holds; readers of the log, which change nothing, are not shown.
- AdminTransport.Use: requires padding only between frames, as the sender writes it; a NUL inside a frame would be kept in it, and a read of no bytes is the end of the stream.
- WireFrames.AnswersRoundTrip: assumes each header fits, since a replaced one is treated by RawResponseInSyncIff.
