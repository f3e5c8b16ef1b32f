# Verified model of the Kubetest-alt core

Kubetest-alt runs tests on Kubernetes and keeps their logs, verdicts and history. This project models the
state machines at its core in Dafny and proves what they promise. `dafny verify dfyconfig.toml` checks all of it.

- **Log tailer** (`ring`, `transducer`, `tailer`, `replay`, `timestamps`, `resume`, `fanout`, `registry`): pod logs arrive as
  arbitrary chunks of bytes. Timestamps are stripped, lines replayed after a reconnect are dropped, and the rest
  goes to a ring buffer, to subscribers and into numbered chunks with a resume cursor. `transducer` is the
  byte-at-a-time reference; the imperative `Tailer.Consume` equals it. `timestamps` says of real lines what it does to them. `replay`, `resume` and `fanout` are
  statements over all disconnects, all crashes and all interleavings; the class's steps are proved to be theirs.
- **Log readers** (`readers`, `following`): the polling chunk reader, the text endpoint with its offset, and the CLI
  that follows; and what the chunk reader has sent when tailers crash and resume meanwhile.
- **Composite runs** (`composite`, `composite_tries`, `composite_protocol`, `composite_order`, `composite_runs`,
  `composite_verdicts`, `composite_witness`, `composite_pass`, `composite_ending`): steps of child runs with retries. The protocol lets
  passes read old statuses and listings of any age, lose status writes and stop half way; `Reconcile` is one undisturbed
  pass, proved to be a run of it. `composite_protocol` has what holds in every run, `composite_order` the order of
  steps, `composite_verdicts` what verdicts say of the children, and `composite_witness` the runs that show where an
  order or a cap fails.
- **Composition graph** (`compose_graph`): the depth-first check for cycles and depth.
- **Parallel runs** (`parallel_runs`, `parallel_protocol`, `parallel_verdicts`, `worker_expansion`): the expansion into workers, and the
  accounting of their verdicts over lagging caches and version-checked writes.
- **Forbid queue** (`forbid_queue`) and **run listing** (`run_list`, `run_list_contents`): one run of a Test at a time without deadlock,
  and pages merged from the cluster and the store.
- **Partitions and retention** (`partitions`, `retention`): calendar months, and files before rows.
- `bytes`, `order`, `names`, `phases` hold what several of these share.

The API server, the caches, the object storage and the database appear as maps and sequences that change by
events: a read may show an earlier state, a write may fail, a status write is accepted only against the version
it was read from. Clocks, timestamps parsing and hashes are parameters.

## Where the code does not do what it says

The model follows the code in these places.

- `Aggregate` returns the first aborted-or-error child in order; aborted does not beat error
  (internal/composer/aggregate.go:90-100).
- Retries are made outside the parallelism cap. It holds for steps without retries, however old the listings are, and
  for those with no more distinct children than the cap; any other step has a run that exceeds it
  (`CompositeRuns.ParallelismHolds`, `CompositeWitness.ParallelismExactly`).
- A recorded verdict never changes, in any run (`CompositeRuns.VerdictsNeverChange`). What a step timeout can break is
  the order of steps, even though children are listed by the API server itself: the timeout can be lost after the next
  step was started on the grounds of it; or the next step is skipped for it, and a pass that still reads an older
  status, by which time the overdue child has passed, has a child made for the skipped step. Up to any step that has
  no timeout before it, children come in turn and no started step is skipped, in every run
  (`CompositeWitness.OrderlyExactlyWithoutTimeouts`, `ForgottenTimeout`, `OldStatus`).
- `publish` appends to the ring before it takes the subscribers' lock, hence the one frame that can arrive twice
  (`Fanout.NoGapAndOneOverlap`).
- A cursor that cannot be read has the chunks wiped but is not removed. After a crash the next operator is sound
  exactly when a new cursor was put in between, or the chunks had caught up with the old one
  (`Resume.UnreadCursorExactly`, `Resume.UnreadCursorLosesTheLog`).
- A history row whose run still shows as live is left off its page and never comes back: the page can end the listing,
  or an older run of the cluster can take the row's place and the cursor pass over what the store had not answered
  with yet. A page is right exactly when every run it does not know of comes after it, which the handler could tell
  where the store's answer was not full or the page ends no later than the answer
  (`RunList.PageIsRightExactly`, `RunList.GuardedIsRight`, `RunList.HidesAnOlderRun`, `RunList.PassesOverARun`).
- An optional step that was aborted, or ended in error, stops the steps after it that do not run always, and the
  parent still passes (`Composite.PassedSkipsNothingExactly`, `Composite.AbortedOptionalStillPasses`).
- Any error of the live read of a worker's Job, not only "not found", is taken for a deletion; a worker whose Job is
  there is then recorded as an orphan (`ParallelProtocol.OrphanExactly`, `ParallelProtocol.FailedLiveReadLooksDeleted`).
- Forbid lists the other runs through the cache, which may not show a start yet. Two runs then get active although
  runs are set up one at a time: where one that is queued earlier has a notBefore that comes due later, or was created
  in the same second with an earlier name but after the other. For other runs at most one is active
  (`ForbidQueue.ExclusiveExactlyInTurn`, `ForbidQueue.UnshownStartMakesTwo`).
- A tailer that is resumed after a crash between a chunk's Put and its cursor's stores that chunk anew, perhaps with
  another content; a reader that has sent the old one does not send the new one
  (`Following.FollowingIsReadingExactly`).
- Chunk keys sort as their numbers up to 100,000,000 chunks and no further (`Names.KeysListInOrder`).

## Model

| member | source | states |
|---|---|---|
| Ring.OverwriteRotates | internal/logstream/ring.go:72-85 | overwriting the byte at the tail and moving the tail on turns the circular reading by one byte |
| Ring.SlidesEnd | internal/logstream/ring.go:72-85 | the last capacity bytes of a history that grows by one byte are the old ones without their first, plus the new one |
| Ring.RingBuffer.constructor | internal/logstream/ring.go:53-58 | an empty history; a capacity that is not positive becomes 1 |
| Ring.RingBuffer.AppendByte | internal/logstream/ring.go:72-85 | one byte more in the history; the fields go on describing its end |
| Ring.RingBuffer.Append | internal/logstream/ring.go:62-70 | the history grows by exactly the given bytes, whose total is returned |
| Ring.RingBuffer.Snapshot | internal/logstream/ring.go:91-107 | the last min(total, capacity) bytes of the history in order, the offset they start at, and overflowed exactly when bytes were lost |
| Transducer.ChunkingIndependence | internal/logstream/tailer.go:372-414 | feeding a chunk in two parts publishes the same bytes and leaves the same line state, header, position and filter |
| Transducer.AnySplit | internal/logstream/tailer.go:372-414 | any list of chunks is worth its concatenation |
| Transducer.ScanStaysValid | internal/logstream/tailer.go:359-414 | a held header never exceeds 35 bytes, all of which could belong to a timestamp |
| Transducer.EveryByteAccountedFor | internal/logstream/tailer.go:372-414 | every byte is published, dropped as a replay, stripped as a timestamp or held; the published and held ones are the output and the header, in order |
| Replay.PosMeaning | internal/logstream/position.go:44-50 | a position after m lines is the last timestamp and the number of lines carrying it |
| Replay.FilterDecides | internal/logstream/position.go:67-76 | on a stream reopened no later than the first line stamped Last, a line is dropped exactly when it was published before |
| Replay.FeedLine | internal/logstream/tailer.go:372-414 | a whole line is published without its timestamp when it is new, and otherwise dropped |
| Replay.FeedCutStamp | internal/logstream/tailer.go:372-414 | a line cut inside its timestamp has published nothing and moved nothing |
| Replay.FeedCutContent | internal/logstream/tailer.go:372-414 | a new line cut in its content has published exactly what was read of it |
| Replay.FeedStream | internal/logstream/tailer.go:372-414 | what reading any number of bytes of a stream publishes |
| Replay.ReadShape | internal/logstream/tailer.go:372-414 | a connection only adds lines; it leaves short only the new line it was cut in after that line's timestamp |
| Replay.ServeOne | internal/logstream/tailer.go:436-492 | one more connection, reopened at the position, goes on from the progress so far |
| Replay.ReplayAfterDisconnects | internal/logstream/tailer.go:372-492 | over any number of cuts at any bytes each line is published at most once and in order, and only the unread tail of a line cut after its timestamp is lost |
| Replay.NothingLostAtLineStarts | internal/logstream/tailer.go:372-492 | cuts at a line start or inside a timestamp lose nothing at all |
| Replay.LastConnectionCompletes | internal/logstream/tailer.go:372-492 | a last connection read to the end reaches the last line and loses nothing more |
| Timestamps.StampedLinesAreALog | internal/logstream/tailer.go:355-365 | RFC 3339 stamps with up to nine digits of a fraction and Z or an offset, described byte by byte, on lines whose times never decrease make a log in the sense of the theorems above |
| Timestamps.StampedLine | internal/logstream/tailer.go:372-414 | from any line start such a line is published without its stamp when it is later than the position or not counted yet, and not at all otherwise, and is counted either way |
| Timestamps.UnstampedLine | internal/logstream/tailer.go:394-409 | a line that does not begin with a timestamp and a space is published as it is, wherever the stream was reopened |
| Timestamps.FirstReadPublishesAll | internal/logstream/tailer.go:372-414 | of any mix of such lines a tailer without a position publishes every line, stripped of the stamp it has |
| Resume.StartKeeps | internal/logstream/tailer.go:203-217 | starting at the cursor, or from a wiped prefix without one, keeps the invariant of chunks, cursor and tailer |
| Resume.ReceiveKeeps | internal/logstream/tailer.go:372-414 | reading on keeps it |
| Resume.ReopenKeeps | internal/logstream/tailer.go:459-492 | so does a disconnect at any byte |
| Resume.PutChunkKeeps | internal/logstream/tailer.go:598-614 | so does storing a chunk before its cursor |
| Resume.PutCursorKeeps | internal/logstream/tailer.go:620-630 | so does storing the cursor: chunks below n end at position p, chunk n is absent or continues them, nothing lies above |
| Resume.StepKeeps | internal/logstream/tailer.go:203-217 | every event of an operator's life, a crash between the two Puts included, keeps the invariant |
| Resume.RunKeeps | internal/logstream/tailer.go:598-630 | the invariant holds in every reachable state |
| Resume.StoredLogIsPrefix | internal/logstream/tailer.go:598-630 | the stored chunks are numbered without a gap and in key order are the stripped log up to some point, each line once, short only where a stream or a tailer ended with the line not complete |
| Resume.UncutLogIsExact | internal/logstream/tailer.go:598-630 | where no stream and no tailer ended inside a line since the chunks were last wiped, the stored log is an exact prefix of the stripped log |
| Resume.CutsAreInside | internal/logstream/tailer.go:459-492 | the lines that count as cut are ones that a stream was left inside, or a tailer resumed inside |
| Resume.FlushedAtEndIsComplete | internal/logstream/tailer.go:598-630 | with the log read to its end and flushed, the stored log has all lines |
| Resume.EndedIsComplete | internal/logstream/tailer.go:598-630 | and so it does once the cursor was put, which is how a log ends |
| Resume.UnreadCursorExactly | internal/logstream/registry.go:124-199 | after a start that could not read its cursor and a crash, the next start is sound exactly when a new cursor was put in between or the chunks had caught up with the old one |
| Resume.CatchingUpIsRare | internal/logstream/registry.go:124-199 | where every line gives a position, catching up means one chunk, counted by the old cursor, stored again as it was, and a crash before its cursor |
| Resume.UnreadCursorLosesTheLog | internal/logstream/registry.go:179-199 | a cursor that cannot be read has the chunks wiped but stays; a crash before the next cursor then resumes in the middle of nothing |
| Fanout.StepKeeps | internal/logstream/tailer.go:275-350 | every interleaved step of publishing, subscribing, leaving and finishing keeps what each subscription was promised |
| Fanout.RunKeeps | internal/logstream/tailer.go:275-350 | so do whole interleavings |
| Fanout.NoGapAndOneOverlap | internal/logstream/tailer.go:275-350 | a subscriber that is in time is sent the last ringBytes bytes of what was appended before, in one frame that is marked exactly when there were more, and then consecutive frames, each by itself and unmarked, at most the first overlapping; it is closed at most once, and EOF means nothing was missed |
| Fanout.OverlapIsOneFrame | internal/logstream/tailer.go:325-350 | live frames start at or before the snapshot's end and less than a frame before it |
| Fanout.NeverSentAfterClose | internal/logstream/tailer.go:160-165 | no frame follows a close |
| Fanout.ClosedForAReason | internal/logstream/tailer.go:305-350 | a subscription is closed as overflowed only if its queue was full when a frame came, as unsubscribed only if its reader left, and as ended only once the log has ended |
| Fanout.PublishIsPath | internal/logstream/tailer.go:325-350 | publish as a whole, its closes included, is a path of the interleaving model's steps and leaves nothing half done |
| Fanout.EndIsPath | internal/logstream/tailer.go:636-653 | so is the end of all subscriptions |
| Fanout.UnsubscribeIsPath | internal/logstream/tailer.go:307-320 | and a subscriber's leaving; leaving again does nothing |
| Tailer.Subscribers.Subscribe | internal/logstream/tailer.go:275-303 | the ring's snapshot and the registration, in one step of the interleaving model |
| Tailer.Subscribers.Unsubscribe | internal/logstream/tailer.go:307-320 | a registered subscription is taken out and closed; leaving again does nothing |
| Tailer.Subscribers.CloseAll | internal/logstream/tailer.go:160-165 | each of the given subscriptions is closed once |
| Tailer.Subscribers.OfferAll | internal/logstream/tailer.go:337-344 | each registered subscriber with room gets the frame; the others are counted out |
| Tailer.Subscribers.FanOut | internal/logstream/tailer.go:335-345 | the next frame goes to all registered subscribers with room; the others are taken out |
| Tailer.Subscribers.CloseDropped | internal/logstream/tailer.go:347-349 | and are then closed as overflowed |
| Tailer.Subscribers.Finish | internal/logstream/tailer.go:641-652 | at the end nobody is registered any more and everybody is closed as ended |
| Tailer.Tailer.constructor | internal/logstream/tailer.go:203-217 | a tailer starts at its cursor's chunk number and position, or fresh |
| Tailer.Tailer.Advance | internal/logstream/position.go:44-50 | the published line's timestamp, counted when it repeats |
| Tailer.Tailer.KeepLine | internal/logstream/position.go:67-76 | whether a line is new on this connection, and the count of those at the position's timestamp |
| Tailer.Tailer.HeaderByte | internal/logstream/tailer.go:375-398 | a byte of a line start does what one step of the transducer does, or makes the line content from its start on |
| Tailer.Tailer.RestOfLine | internal/logstream/tailer.go:399-409 | taking the rest of a line at once equals feeding it byte by byte |
| Tailer.Tailer.Consume | internal/logstream/tailer.go:372-414 | state, output and pending bytes after a chunk are those of feeding it byte by byte |
| Tailer.Tailer.Publish | internal/logstream/tailer.go:325-350 | published bytes join the ring's history and the pending chunk, and go out to the subscribers as one publish of the interleaving model |
| Tailer.Tailer.FlushPartialLine | internal/logstream/tailer.go:418-423 | a line start still held is published as it is, to the subscribers too |
| Tailer.Tailer.FlushPending | internal/logstream/tailer.go:598-614 | the pending bytes become the next chunk and only then a cursor; a chunk that fails is given up with its number |
| Tailer.Tailer.SaveCursor | internal/logstream/tailer.go:620-630 | the cursor is the next chunk number and the position, or none without a timestamped line |
| Tailer.Tailer.StartPump | internal/logstream/tailer.go:459-492 | a reopened stream starts at the position with an empty header and a filter up to it; it gives up only when the attempts are spent |
| Tailer.Tailer.HandleData | internal/logstream/tailer.go:516-525 | data is consumed and told to the subscribers, and flushed once a chunk's worth is pending: the chunk, its number and the cursor after it |
| Tailer.Tailer.Finalize | internal/logstream/tailer.go:636-653 | in any state: the last flush with its cursor, then the end and close of every subscription |
| Tailer.IndexAfterNewline | internal/logstream/tailer.go:399-402 | where the current line ends, if it does |
| Tailer.PassThrough | internal/logstream/tailer.go:394-397 | a line start that is no timestamp is content like the rest of its line |
| Tailer.SegmentFeeds | internal/logstream/tailer.go:399-409 | inside a line everything up to its end is kept or dropped at once |
| Tailer.BeginIsAStep | internal/logstream/registry.go:150-175 | a tailer made for a store's cursor that opens its stream is a start of the crash model |
| Tailer.ReopenIsAStep | internal/logstream/tailer.go:459-492 | opening the stream again is its reopening |
| Tailer.FlushIsTwoSteps | internal/logstream/tailer.go:598-630 | a flush is its chunk Put and then its cursor Put |
| Tailer.HandleIsSteps | internal/logstream/tailer.go:516-525 | handling data is receiving it and, with a chunk's worth pending, those two |
| Registry.TailerRegistry.EnsureTailer | internal/logstream/registry.go:124-199 | a run without a tailer gets one at its cursor, or after wiping its chunks where there is no cursor or it cannot be read; a second call and a call after shutdown change nothing |
| Registry.TailerRegistry.StopTailer | internal/logstream/registry.go:211-222 | takes exactly that run's tailer out |
| Registry.TailerRegistry.Shutdown | internal/logstream/registry.go:227-236 | takes all of them out and refuses new ones |
| Readers.TextGrows | internal/apiserver/chunk_reader.go:83-166 | what is stored later continues what was stored before |
| Readers.ChunkStream.DrainOnce | internal/apiserver/chunk_reader.go:99-123 | of any listing the chunks not sent yet go out in key order, each once, up to where a read fails or the client is gone |
| Readers.ChunkStream.Run | internal/apiserver/chunk_reader.go:83-170 | what was emitted is what draining the listings one after the other gives, whatever they are; without polling the stream is over after one, else it ends because the run is, having drained one listing made after that was seen, or because the last gave nothing new and the deadline has passed |
| Readers.FollowsTheLog | internal/apiserver/chunk_reader.go:99-123 | while chunks are only added, that is the beginning of the log, each chunk once, as far as any listing went |
| Following.SentAsFirstListed | internal/apiserver/chunk_reader.go:99-123 | of chunks numbered from 0, every one that was listed was sent, with the body it had when it was first listed |
| Following.ChunksStay | internal/logstream/tailer.go:598-630 | over crashes and resumes without a wipe, all chunks but the last stay as they are |
| Following.FollowingIsReadingExactly | internal/apiserver/chunk_reader.go:83-166 | a stream that lists at any moments of such a run and at its end has sent exactly what is stored then, if and only if no poll got a last chunk that was replaced by a different one |
| Following.ListedIsStored | internal/apiserver/handlers_logs.go:158-220 | what is stored then, one body after the other, is the stored log |
| Readers.TextResponse.Emit | internal/apiserver/handlers_logs.go:204-220 | skipping goes across chunk boundaries |
| Readers.LogsText | internal/apiserver/handlers_logs.go:158-220 | the response is the stored log without its first offset bytes |
| Readers.Follower.DrainLog | internal/cli/cli.go:344-352 | whatever arrives of what is missing is printed and counted |
| Readers.Follower.Follow | internal/cli/cli.go:342-369 | what is printed is always a prefix of the log, however responses are cut |
| Readers.DropThenTake | internal/cli/cli.go:344-352 | printing any part of what is missing keeps what is printed a prefix |
| Composite.FirstSevereMeaning | internal/composer/aggregate.go:90-100 | the first aborted-or-error child in order; none exactly when there is no such child |
| Composite.AggregateIsTerminal | internal/composer/aggregate.go:84-120 | a step's verdict is always terminal |
| Composite.AggregateChildren | internal/composer/aggregate.go:84-120 | the step passes exactly when it has children and all passed, in a negative step all failed; it fails without children, or when none was aborted or in error and some failed, or passed in a negative step; else it ends as the first that was |
| Composite.LatestAttempt | internal/controller/composite.go:326-335 | the newest existing try, looked for from the highest number down |
| Composite.GatherOutcomes | internal/controller/composite.go:347-368 | the outcomes of a step that is done, or the tries to make again |
| Composite.ShouldSkipStep | internal/controller/composite.go:545-564 | a step is skipped exactly when it is not "always" and an earlier executed step was aborted, in error, or failed without being optional |
| Composite.ComputeParentPhase | internal/composer/aggregate.go:181-209 | the parent's phase over the executed steps that are not optional |
| Composite.CountingMeaning | internal/composer/aggregate.go:181-209 | which verdicts count for the parent |
| Composite.ParentPasses | internal/composer/aggregate.go:181-209 | the parent passes exactly when every executed step that is not optional passed |
| Composite.PassedSkipsNothingExactly | internal/controller/composite.go:545-564 | for rightly skipped terminal verdicts under a parent that passed, nothing is skipped exactly when every step after one aborted or in error is an always step |
| Composite.PassedSkippedNothing | internal/controller/composite.go:545-564 | so with no optional step aborted or in error, a parent that passed skipped nothing |
| Composite.AbortedOptionalStillPasses | internal/controller/composite.go:545-564 | with one it can: the step behind the aborted one is skipped and the parent passes |
| Composite.ParentMessage | internal/controller/composite.go:569-587 | how many steps passed or failed and may, how many were skipped, and the rest |
| CompositeTries.NoGap | internal/controller/composite.go:326-368 | tries are numbered without a gap, each but the newest ended in an outcome worth retrying |
| CompositeTries.AbortedIsLast | internal/composer/aggregate.go:297-307 | no try follows an aborted one |
| CompositeTries.OutcomeStands | internal/controller/composite.go:347-368 | a child that needs no further try never gets one |
| CompositeTries.SettledStays | internal/controller/composite.go:347-368 | a settled step stays settled with the same outcomes, whatever children join |
| CompositeTries.ToCreateExpected | internal/controller/composite.go:391-420 | first tries are made only for expected children and within the cap that is left |
| CompositeTries.CreateFirstKeeps | internal/controller/composite.go:373-420 | making first tries keeps the numbering of tries |
| CompositeTries.AgainIsOk | internal/controller/composite.go:347-368 | every retry asked for follows a try that ended badly enough and is within the retries |
| CompositeTries.CreateAgainKeeps | internal/controller/composite.go:163-167 | making the retries keeps the numbering, even if the listing they come from is old |
| CompositeTries.TriesAreBounded | internal/controller/composite.go:229-253 | a run never has more children than the sum over its steps of count times (retries + 1) |
| CompositeVerdicts.GatherMeaning | internal/controller/composite.go:347-368 | a step is done exactly when the newest try of each child has ended and is the last it may have or ended well, and its outcomes are those; tried again are exactly the children whose newest try ended badly with retries left |
| CompositeVerdicts.MakesTheMissing | internal/controller/composite.go:391-420 | first tries are made for the first of the children without any, as many as the parallelism leaves room for |
| CompositeProtocol.MarkingIsSound | internal/controller/composite.go:121-143 | marking the next step started, closed or bypassed as the verdicts before it call for keeps the marks sound |
| CompositeProtocol.StatusJoins | internal/controller/composite.go:510-517 | a version whose marks go on from the last joins the history soundly |
| CompositeProtocol.AdvanceSound | internal/controller/composite.go:121-208 | skipping, taking a recorded verdict and aggregating keep the marks and the tries sound, from any listing |
| CompositeProtocol.EnsureSound | internal/controller/composite.go:373-420 | so does making first tries from an old listing, all or some of them |
| CompositeProtocol.RetriesJoin | internal/controller/composite.go:160-167 | so does making retries from an old listing |
| CompositeProtocol.WaitSound | internal/controller/composite.go:160-199 | so does the wait's status write, stored or lost, and a step timeout |
| CompositeProtocol.StatusSound | internal/controller/testrun_controller.go:1069-1094 | so do somebody else's write of the phase and the final write |
| CompositeProtocol.StepSound | internal/controller/composite.go:80-214 | so does every event, timeouts and losses together |
| CompositeOrder.DecidedStays | internal/controller/composite.go:140-208 | what the children have decided stays decided as children go on and join |
| CompositeOrder.DecidedSkips | internal/controller/composite.go:121-143 | decided verdicts are terminal, and absent exactly where a step is to be skipped |
| CompositeOrder.KidsJoin | internal/controller/composite.go:261-277 | children that go on, or join where their step is reached, keep the order |
| CompositeOrder.AdvanceKeeps | internal/controller/composite.go:121-208 | so does skipping, taking a recorded verdict, or aggregating |
| CompositeOrder.EnsureKeeps | internal/controller/composite.go:373-420 | so does making first tries from an old listing |
| CompositeOrder.StoredKeeps | internal/controller/composite.go:160-184 | so does the wait's status write |
| CompositeOrder.TimeoutKeeps | internal/controller/composite.go:182-199 | so does a timeout of a step not before h, and one that is not lost |
| CompositeOrder.EndKeeps | internal/controller/composite.go:182-214 | so does the final write, or a pass that is given up |
| CompositeOrder.StepKeeps | internal/controller/composite.go:80-214 | so does every event that either regime allows |
| CompositeRuns.RunSound | internal/controller/composite.go:80-214 | marks, tries and the pass at work are sound in every reachable state, whatever times out, is lost, or is written by others |
| CompositeRuns.VerdictsNeverChange | internal/controller/composite.go:510-517 | in every run, from one version of the status to any later one a recorded verdict or skip never changes, and a started step only closes |
| CompositeRuns.MarksComeInTurn | internal/controller/composite.go:121-143 | in every run and version a marked step comes after settled ones, and is bypassed exactly when it is not always and an earlier one closed as aborted, in error, or failed without being optional |
| CompositeRuns.FinishIsRight | internal/controller/composite.go:210-214 | in every run the final status has every step closed or bypassed, bypassed exactly as above; it is passed when all closed steps that are not optional passed, failed when none of them was aborted or in error and one failed, and else as the first that was |
| CompositeVerdicts.ClosedAsItsChildren | internal/controller/composite.go:186-208 | in every run and version a closed step failed by its timeout, or all its children have come to something final and it is closed as their outcomes demand |
| CompositeRuns.RunsAreOrderly | internal/controller/composite.go:121-208 | for any step h with no timeout before it, in every run: a child of a step up to h exists only where the earlier ones are settled and do not skip it, and none of these steps with children is marked as skipped in any version |
| CompositeRuns.CalmRunsAreOrderly | internal/controller/composite.go:182-199 | with timeouts anywhere, so in runs whose passes read the latest status and lose no decision |
| CompositeWitness.ForgottenTimeout | internal/controller/composite.go:182-199 | where an overdue step does not stop the next one: a run from the start, with live listings, in which its timeout is lost and a child is out of turn |
| CompositeWitness.SkipsOn | internal/controller/composite.go:121-208 | a pass that skips a step behind a failed one goes on until a step that runs always is waited for, or to the end, and that is written |
| CompositeWitness.OldStatus | internal/controller/composite.go:121-143 | where it does stop it: a run from the start, with live listings, in which the next step is recorded as skipped and a pass that still reads an older status has a child made for it |
| CompositeWitness.OrderlyExactlyWithoutTimeouts | internal/controller/composite.go:121-208 | for any step h of a plan whose steps have children: all runs, and so all runs with live listings, are orderly up to h exactly when no step before h has a timeout |
| CompositeRuns.OneTryAtATime | internal/controller/composite.go:347-368 | a child has at most one try in flight |
| CompositeRuns.FlightWithinChildren | internal/controller/composite.go:347-368 | so a step has no more tries in flight than distinct children it expects |
| CompositeRuns.EnsureWithinCap | internal/controller/composite.go:391-420 | making first tries from any listing, however old, stays within the parallelism of a step without retries: the children it lacks come first |
| CompositeRuns.StepWithinCap | internal/controller/composite.go:391-420 | so does every event |
| CompositeRuns.ParallelismHolds | internal/controller/composite.go:391-420 | in every run a step without retries, or one with no more distinct children than its cap, never has more children in flight than its parallelism |
| CompositeWitness.ParallelismFails | internal/controller/composite.go:160-167 | for any other step a run from the start, with live listings, that exceeds the cap |
| CompositeWitness.ParallelismExactly | internal/controller/composite.go:160-167 | so the cap holds in all runs, and so in all runs with live listings, exactly for steps without retries or with no more distinct children than it allows |
| CompositePass.CompositeRun.EnsureStepChildren | internal/controller/composite.go:373-420 | exactly the first tries the cap allows are made, or none before the delay is over |
| CompositePass.CompositeRun.CreateRetries | internal/controller/composite.go:163-167 | all retries asked for are made; those that exist are left alone |
| CompositePass.ChoiceIsReady | internal/controller/composite.go:80-214 | what an undisturbed pass does next is an event of the protocol that loses nothing, and passes come to an end |
| CompositePass.CompositeRun.Reconcile | internal/controller/composite.go:80-214 | the status versions and children after a pass are those the protocol comes to |
| CompositePass.PassStops | internal/controller/composite.go:80-214 | a pass ends the run with every step settled, or stops at the first step that is not, which is then started, and not past its timeout unless this pass started it |
| CompositePass.TimesOutOnlyOverdue | internal/controller/composite.go:182-199 | a step is timed out only if it has a timeout, is past it, and was started before the pass |
| CompositePass.MadeAfterTheDelay | internal/controller/composite.go:381-391 | first tries are made only once their step's delay is over |
| CompositeEnding.DrivenKeeps | internal/controller/composite.go:80-214 | a whole pass keeps what is sound and all children, and makes at most new ones |
| CompositeEnding.FirstAreNew | internal/controller/composite.go:399-418 | a first try is made only for a child without any try |
| CompositeEnding.DoneOrAgain | internal/controller/composite.go:347-368 | when all tries have ended, a step is done or asks for a try there is not |
| CompositeEnding.PassProgress | internal/controller/composite.go:80-214 | a pass over ended children makes a new try or ends the run |
| CompositeEnding.OpenRunsGoOn | internal/controller/composite.go:80-214 | an open run always has a move that comes to something: the end of a child at work, or else the next pass |
| CompositeEnding.MoveLowers | internal/controller/composite.go:80-214 | such a move ends the run or lowers the tries still to make, or else those at work |
| CompositeEnding.RunEnds | internal/controller/composite.go:80-214 | in whatever order children end and passes are made, a run has no more such moves than twice the tries still to make, the tries at work, and one |
| ComposeGraph.Resolver.Walk | internal/composer/aggregate.go:242-276 | visiting is the set of the path, which has no duplicates; both are restored; the finding is that of the recursive exploration |
| ComposeGraph.ResolveGraph | internal/composer/aggregate.go:239-278 | the finding for the root; the walk ends on every graph |
| ComposeGraph.FineMeansShallow | internal/composer/aggregate.go:243-246 | where nothing is found, no walk is longer than what is left of MAX_DEPTH |
| ComposeGraph.FindingsAreRight | internal/composer/aggregate.go:247-251 | a finding along a path names a real walk from the root |
| ComposeGraph.CycleGoesOn | internal/composer/aggregate.go:247-251 | a walk that comes back can be made as long as one likes |
| ComposeGraph.NilMeansShallow | internal/composer/aggregate.go:239-278 | no error exactly when no walk from the root makes more than ten moves |
| ComposeGraph.NilMeansAcyclic | internal/composer/aggregate.go:239-278 | no error means no walk comes back to a name on it |
| ComposeGraph.ErrorsAreRight | internal/composer/aggregate.go:243-251 | a cycle's path is a real walk whose last name, and no other, occurs earlier in it; a depth error has a walk that deep |
| ParallelRuns.RunStatus.FinishWorker | internal/controller/parallel.go:297-331 | a verdict is folded in once: step, counts and prefixed artifacts |
| ParallelRuns.RunStatus.ReconcileWorker | internal/controller/parallel.go:153-226 | what one look at a worker records, and whether its Job is to go |
| ParallelRuns.RunStatus.AggregateWorkers | internal/controller/parallel.go:335-352 | error exactly when a worker is in error, failed exactly when none is and one failed or was aborted, else passed |
| ParallelRuns.RunStatus.ReconcileParallel | internal/controller/parallel.go:78-137 | a pass over all workers; Jobs are deleted only after an accepted write |
| ParallelProtocol.SumsInsert | internal/controller/parallel.go:311-330 | a further verdict adds its counts and artifacts exactly once |
| ParallelProtocol.CheckAccounts | internal/controller/parallel.go:153-226 | a look at a worker keeps the accounts and every verdict found |
| ParallelProtocol.OrphanWasDeleted | internal/controller/parallel.go:162-173 | a worker is given up as an orphan only if somebody else deleted its Job or the live read did not tell |
| ParallelProtocol.OrphanExactly | internal/controller/parallel.go:162-173 | with an up-to-date status, exactly when the Job is gone, and then by others, or the live read fails or is not there |
| ParallelProtocol.CommitKeeps | internal/controller/parallel.go:113-136 | a status write, checked against the version read, keeps the invariant |
| ParallelProtocol.DeleteKeeps | internal/controller/parallel.go:141-147 | deleting the Jobs of stored verdicts does |
| ParallelProtocol.OutsideKeeps | internal/controller/parallel.go:153-226 | so do Jobs that end or that others delete, and passes that are given up |
| ParallelProtocol.StepKeeps | internal/controller/parallel.go:78-226 | every event keeps the invariant |
| ParallelProtocol.RunKeeps | internal/controller/parallel.go:78-226 | it holds in every reachable state |
| ParallelProtocol.EveryWorkerCountedOnce | internal/controller/parallel.go:297-352 | the stored counts are the sum over workers with a verdict, each once; artifacts their union under separate prefixes; an ended run carries the aggregate |
| ParallelProtocol.VerdictsNeverChange | internal/controller/parallel.go:155-159 | a stored verdict is in every later version, unchanged |
| ParallelProtocol.OrphansAreGoneOrUnseen | internal/controller/parallel.go:162-173 | in every reachable state a recorded orphan's Job was deleted by others, or a live read did not tell of it |
| ParallelProtocol.FinishedIsNoOrphan | internal/controller/parallel.go:97-147 | unless the run is being aborted, a worker whose Job the controller deleted has its own result stored and is no orphan in any later version, whatever reads fail |
| ParallelProtocol.FailedLiveReadLooksDeleted | internal/controller/parallel.go:162-173 | a run from the start in which one failed live read makes an orphan of a worker whose Job is there |
| ParallelProtocol.PassIsCheckAll | internal/controller/parallel.go:78-112 | what an undisturbed pass of the protocol has found is what the reconciler's loop computes |
| ParallelProtocol.CommitIsTheWrite | internal/controller/parallel.go:113-136 | and what it writes is the reconciler's write |
| ParallelVerdicts.EndedAsItsWorkers | internal/controller/parallel.go:333-352 | in every reachable state of a run that has ended and is not being aborted, all workers have ended; it is in error exactly when a worker is, failed exactly when none is and one failed or was aborted, passed exactly when all passed |
| ParallelVerdicts.PassStores | internal/controller/parallel.go:105-136 | what a pass stores is running, or, once it found all workers finished, ended as they call for |
| ParallelVerdicts.VerdictsAreTheWorkers | internal/controller/parallel.go:162-205 | in every reachable state the phase and message of an ended worker are those that a look at that very worker told: its own result, an orphan's error, or a refused Job's |
| ParallelVerdicts.CountsAreSums | internal/controller/parallel.go:314-322 | each of the four stored counts is the sum over the workers with a verdict, and there are counts exactly when one of them reported some |
| ParallelVerdicts.ArtifactsAreTheWorkers | internal/controller/parallel.go:325-330 | the stored artifacts are those that workers with a verdict reported, each under workers/<i>/artifacts/, and as many |
| ParallelVerdicts.PassComesTo | internal/controller/parallel.go:98-112 | a pass fails exactly when a look at a worker does; else each worker comes to what was seen of it, all are finished exactly when each had ended, is seen to have, or looks gone, and the Jobs to delete are those seen to have ended |
| WorkerExpansion.CombosAtRank | internal/compiler/parallel.go:58-70 | a combination stands at the mixed-radix number of its values' indices |
| WorkerExpansion.PickOfRank | internal/compiler/parallel.go:58-70 | every number of a combination is that of some choice of indices |
| WorkerExpansion.RankInjective | internal/compiler/parallel.go:58-70 | and of one only |
| WorkerExpansion.EveryChoiceIsThere | internal/compiler/parallel.go:58-70 | every choice of one value per key is a combination |
| WorkerExpansion.CombinationsDiffer | internal/compiler/parallel.go:58-70 | with distinct values no combination occurs twice |
| WorkerExpansion.CutSizes | internal/compiler/parallel.go:90-91 | a part has the quotient's number of values, or one more |
| WorkerExpansion.PartsAreConsecutive | internal/compiler/parallel.go:90-91 | the first parts are the beginning of the list |
| WorkerExpansion.ShardsSplitTheList | internal/compiler/parallel.go:87-92 | the parts of a list concatenate to it and differ in size by at most one |
| WorkerExpansion.PerCombination | internal/compiler/parallel.go:71-84 | count; else the longest shard list capped by maxCount, at least one; else one |
| WorkerExpansion.PerIsUnique | internal/compiler/parallel.go:71-84 | those rules give one number |
| WorkerExpansion.ExtendAll | internal/compiler/parallel.go:60-68 | one key's values multiply the combinations, in order |
| WorkerExpansion.Shard | internal/compiler/parallel.go:88-92 | worker j's part of each list |
| WorkerExpansion.ParallelWorkers | internal/compiler/parallel.go:54-97 | worker number c * per + j has combination c and shard j, and the total |
| WorkerExpansion.EveryChoiceAndShardOnce | internal/compiler/parallel.go:54-97 | every choice of matrix values meets every shard number in exactly one worker |
| WorkerExpansion.EmptyListMeansNoWorkers | internal/compiler/parallel.go:60-70 | a key without values leaves no worker |
| RunList.ParsedLimit | internal/apiserver/handlers_runs.go:623-635 | the given number from 1 to 500, 500 for more, 50 for less or for none |
| RunList.NewerTotal | internal/apiserver/handlers_runs.go:335-348 | time descending, no time last, then uid descending: different keys are ordered one way |
| RunList.NewerTransitive | internal/apiserver/handlers_runs.go:335-348 | and transitively |
| RunList.PastIsOlder | internal/apiserver/handlers_runs.go:362-371 | past a cursor are exactly the runs that sort after the one it was made from |
| RunList.CollectClusterRuns | internal/apiserver/handlers_runs.go:266-296 | live runs on the first page only, finished ones past the cursor, and all live uids |
| RunList.MergeStoreRuns | internal/apiserver/handlers_runs.go:301-330 | the store's page merged in, the cluster winning and keeping the stored comment; whether the page was full |
| RunList.SortNewestFirst | internal/apiserver/handlers_runs.go:186-197 | the one sorted listing of the keys |
| RunList.CutPage | internal/apiserver/handlers_runs.go:198-206 | the page cut to the limit, with its cursor if there may be more |
| RunList.ListRuns | internal/apiserver/handlers_runs.go:171-212 | the page a request is answered with |
| RunList.PageIsRightExactly | internal/apiserver/handlers_runs.go:301-330 | a page is the first of what is left, with a cursor to its last run unless nothing is left, exactly when every run its candidates miss comes after it |
| RunList.GuardedIsRight | internal/apiserver/handlers_runs.go:198-206 | so if the store did not answer in full, or the page is not empty and ends no later than that answer |
| RunList.PageIsTop | internal/apiserver/handlers_runs.go:171-212 | so too, and then as full as it can be, where no row of the answer shows as live |
| RunList.UnionAt | internal/apiserver/handlers_runs.go:301-330 | under a uid the union has the cluster's run with the row's comment, or else the row |
| RunList.CursorAdvances | internal/apiserver/handlers_runs.go:171-212 | a cursor always leaves less behind it, so following cursors ends |
| RunList.PageStep | internal/apiserver/handlers_runs.go:171-212 | after a right page the next one begins where it ended |
| RunList.PagesEnd | internal/apiserver/handlers_runs.go:171-212 | there are at most as many pages as runs, and one |
| RunList.PagesGiveEverything | internal/apiserver/handlers_runs.go:171-212 | the finished pages concatenate to the sorted union exactly when every page is right |
| RunList.GuardedPagesAreRight | internal/apiserver/handlers_runs.go:301-330 | they are where the guard holds on each |
| RunList.NoneBothIsRight | internal/apiserver/handlers_runs.go:301-330 | and where no stored run still shows as live in the cluster |
| RunList.EverythingIsSorted | internal/apiserver/handlers_runs.go:335-348 | that union has each run once, newest first |
| RunList.LiveOnlyFirst | internal/apiserver/handlers_runs.go:261-290 | live runs stand on the first page only |
| RunList.LiveRowsEndTheListing | internal/apiserver/handlers_runs.go:319-330 | a page whose store rows all show as live is empty and has no cursor |
| RunList.HidesAnOlderRun | internal/apiserver/handlers_runs.go:319-330 | so an older finished run is not listed: a concrete case |
| RunList.OnlyPast | internal/apiserver/handlers_runs.go:362-371 | what a cursor has passed is on no later page |
| RunList.PassesOverARun | internal/apiserver/handlers_runs.go:319-330 | nor is a run behind a page that has one run and a cursor: an older run of the cluster takes the place of the hidden row, and the cursor passes over it |
| RunListContents.ListedExactly | internal/apiserver/handlers_runs.go:225-330 | to be listed is exactly every finished run of the cluster, with the comment of the store, or else of the store without showing as live, that has the namespace, Test, phase, source and parent asked for, finished no earlier than asked, and comes after the cursor |
| RunListContents.ListedNewestFirst | internal/apiserver/handlers_runs.go:334-347 | each once, the later finished first, and of those finished at the same time the one with the greater uid |
| RunListContents.LiveExactly | internal/apiserver/handlers_runs.go:257-285 | a page shows exactly the unfinished runs of the cluster that are asked for, the latest started first, when it is the first page of a request without finishedAfter and terminal phase, and else none |
| RunListContents.LiveOnSomePage | internal/apiserver/handlers_runs.go:257-285 | so a client that follows the cursors sees exactly those |
| RunListContents.CursorExactly | internal/apiserver/handlers_runs.go:198-206 | there is a next page exactly when something is on this one, and the store has as many rows as the limit or there are more runs to choose from |
| ForbidQueue.BeforeTotal | internal/controller/concurrency.go:74-80 | creation time, then name: a strict order of all runs of a namespace |
| ForbidQueue.BeforeTransitive | internal/controller/concurrency.go:74-80 | which is transitive |
| ForbidQueue.DecideConcurrency | internal/controller/concurrency.go:87-107 | wait exactly under Forbid for an unfinished other run that has started or is older, replace exactly under Replace when some other run is unfinished, else proceed |
| ForbidQueue.ActivePriorCount | internal/controller/concurrency.go:47-59 | how many of the priors are unfinished and not the run itself |
| ForbidQueue.SelectPriorsToAbort | internal/controller/concurrency.go:113-126 | exactly those |
| ForbidQueue.GoesExactly | internal/controller/concurrency.go:65-80 | a run proceeds exactly when every other run listed has ended, or waits and is scheduled for later or is not older: not created in an earlier second, nor in the same with an earlier name |
| ForbidQueue.StepKeeps | internal/controller/testrun_controller.go:538-583 | in every event, what is active while a run is about to start did not show as started in the listing that was decided on |
| ForbidQueue.StartAlone | internal/controller/testrun_controller.go:541-583 | a start leaves one run active exactly when the listing it was decided on showed all that is active |
| ForbidQueue.AtMostOneActive | internal/controller/testrun_controller.go:1145-1159 | so at most one run of a Test is started and unfinished where listings show every start, however they lag otherwise; notBefore runs and same-second creations included |
| ForbidQueue.DecidedInTurn | internal/controller/concurrency.go:65-80 | where no run can be overtaken, one goes only when all that are queued before it have ended, whatever starts the listing does not show |
| ForbidQueue.ExclusiveExactlyInTurn | internal/controller/testrun_controller.go:538-583 | for any runs and their order of creation: in all executions one is active at a time, although listings may not show starts, exactly when a run that is queued before another is created before it and is not scheduled for later than it; otherwise listings go wrong that were all true at some moment |
| ForbidQueue.UnscheduledInOrder | internal/controller/concurrency.go:72-80 | which holds for runs without notBefore, each created in a later second or with a later name |
| ForbidQueue.LeastDueGoes | internal/controller/concurrency.go:65-107 | with nothing started, a due run that sees all runs as they are proceeds exactly when it is first in the queue |
| ForbidQueue.SomeoneGoes | internal/controller/concurrency.go:61-80 | if any run is due, the first of them proceeds: no deadlock |
| ForbidQueue.NotBoth | internal/controller/concurrency.go:65-80 | two waiting runs that each list some unfinished copy of the other never both proceed, however old the copies are |
| ForbidQueue.UnshownStartMakesTwo | internal/controller/testrun_controller.go:1145-1159 | a run from the start, set up one run at a time, in which the cached listing does not show a start yet when an older run becomes due, and both are active |
| Partitions.MonthStartIsGregorian | internal/store/partition.go:47-56 | month starts are those of the Gregorian calendar, leap years included |
| Partitions.NextStart | internal/store/partition.go:47-56 | a month ends where the next begins, December included |
| Partitions.MonthUnique | internal/store/partition.go:47-56 | an instant is in one month only |
| Partitions.PartitionForTimeHolds | internal/store/partition.go:47-56 | the partition for a time is the one month's that holds it |
| Partitions.PartitionsToCreate | internal/store/partition.go:74-95 | the months of the window, in order |
| Partitions.WindowIsGapless | internal/store/partition.go:74-95 | sorted, gap-free and pairwise disjoint |
| Partitions.WindowCovers | internal/store/partition.go:64-95 | every instant from now - retention to now + lookahead, a negative one counting as none, lies in exactly one of them, the partition for its time |
| Partitions.WindowIsTight | internal/store/partition.go:74-95 | and each of them holds an instant of the window |
| Partitions.PartitionsToDrop | internal/store/partition.go:110-119 | the existing partitions that end by the cutoff, in order |
| Partitions.DroppableAre | internal/store/partition.go:97-119 | those holding no instant from the cutoff on, and only those |
| Partitions.DroppableOneByOne | internal/store/partition.go:110-119 | whether one is dropped depends on itself alone, and their order is kept |
| Partitions.NeverDropsTheWindow | internal/store/partition.go:97-119 | with a retention that is not negative, nothing the window needs is dropped |
| Partitions.NegativeRetentionDropsThePresent | internal/store/partition.go:110-119 | a negative retention drops the partition being written to exactly when its end is that near |
| Retention.Job.DropPartition | internal/retention/retention.go:114-139 | objects of the runs in order up to the first failure, then the partition; the count and whether it stayed |
| Retention.Job.RunOnce | internal/retention/retention.go:81-110 | the whole pass, or a refusal without a positive retention or a listing |
| Retention.Job.DropAll | internal/retention/retention.go:95-103 | every partition is tried, failures counted |
| Retention.RemovalsSucceed | internal/retention/retention.go:119-130 | removals succeed exactly when no valid run's prefix fails; then all objects are gone |
| Retention.RemovalsReach | internal/retention/retention.go:119-130 | else they stop at the first run that fails, having removed the objects of the runs before it, in order |
| Retention.PrefixesApart | pkg/storage/keys.go:54-59 | no run's prefix lies within another's, so removing one run's objects leaves those of the others |
| Retention.PassIsInOrder | internal/retention/retention.go:112-139 | whatever fails, a partition is dropped only after the objects of all its valid-keyed runs were removed |
| Retention.PassDrops | internal/retention/retention.go:79-110 | exactly the partitions past the cutoff that nothing hinders are dropped; the others are kept and reported |
| Retention.PassCountsAndPrunes | internal/retention/retention.go:81-139 | a pass reports how many runs it dealt with, and last, once, prunes up to the cutoff |
| Retention.PassKeepsTheWindow | internal/retention/retention.go:81-110 | a pass never drops a partition holding an instant from the cutoff on |
| Names.DecimalInjective | internal/controller/composite.go:293-295 | different numbers are written differently |
| Names.DecimalReads | internal/controller/composite.go:293-295 | a decimal reads as its number and has no zero in front |
| Names.ArtifactPathInjective | internal/controller/parallel.go:325-330 | two workers' artifacts never share a path |
| Names.Bounded | internal/names/names.go:41-48 | at most 63 characters; a name that fits is kept, a longer one ends in its hash |
| Names.BoundedMeaning | internal/names/names.go:41-48 | a longer name is cut to 54 characters and then to its last that is no dash or dot, and a dash and eight characters of the hash follow |
| Names.ChildNameInjective | internal/controller/composite.go:293-295 | children of one parent have different names |
| Names.TryNameInjective | internal/controller/composite.go:319-324 | so have all their tries, whatever dashes, digits or endings the Tests' names have |
| Names.BoundedTryNameInjective | internal/controller/composite.go:293-324 | and so have the names as given, where they fit |
| Names.LogChunkOrderExactly | pkg/storage/keys.go:104-108 | for m < n the key of chunk m sorts first exactly when m is at most n without the digits that n has more |
| Names.LogChunkOrder | pkg/storage/keys.go:104-108 | keys of the same width sort as their numbers, as all below 100,000,000 do |
| Names.KeysListInOrder | pkg/storage/keys.go:104-108 | the keys of a log's chunks list in the order of their numbers exactly when there are at most 100,000,000 of them |
| Names.SomeNames | internal/controller/composite.go:293-324 | what the names of a worker's artifact, a child and a try look like |
| Names.SomeLogChunk | pkg/storage/keys.go:104-108 | and the key of a chunk |

## Left out

- Tailer.Tailer.FlushPending: the protocol in `resume` assumes that chunk Puts succeed and that a cursor Put is lost only in a crash; a Put that fails without one is modelled in the class alone.
- Tailer.Tailer.FlushPartialLine: a graceful stop that holds part of a header publishes it; the resume protocol has no such stop.
- Tailer.Tailer.StartPump: the goroutine that reads the stream, its channel and the waits between attempts are not modelled; which attempts succeed is a parameter.
- Tailer.Tailer.Consume: a position is a value that is replaced, as the struct is copied in the source.
- Replay.ReplayAfterDisconnects: lines without a timestamp (they are published again by every stream that has them), and a log rotation that removes only some of the lines sharing the last timestamp, are excluded.
- Resume.StartKeeps: wiping the chunks of a run without a cursor succeeds; the registry class also has it fail.
- Fanout.NoGapAndOneOverlap: locks are modelled as the steps they make atomic.
- Readers.ChunkStream.Run: the body of a chunk is read as it is listed; deadlines and sleeps are polls that run out.
- Readers.Follower.Follow: the log text only grows; that a resumed tailer may store a chunk anew is related to the chunk reader alone.
- Following.FollowingIsReadingExactly: runs in which the chunks are wiped after the first poll are left out; a stream sends no number twice, so it misses what is stored after a wipe.
- CompositePass.CompositeRun.Reconcile: one pass without interference or failure; interference is in the protocol. Per-child status entries, stage texts and messages are left out.
- CompositeProtocol.StepSound: children deleted by hand, and the abort of a composite run beyond its write of the phase, are left out.
- CompositeWitness.OrderlyExactlyWithoutTimeouts: every step expects some child, as admission demands; a step that expects none has no child to be out of turn.
- CompositeWitness.ParallelismExactly: the steps before it expect some child, as admission demands.
- CompositeEnding.RunEnds: with each step's delay over and no pass disturbed from here on; a delay only postpones a pass.
- ParallelProtocol.EveryWorkerCountedOnce: reported results have terminal phases, as the wrapper writes them; Job and pod construction is left out.
- WorkerExpansion.ParallelWorkers: a shard is the list of its values; joining them with commas, and the environment of the worker's pod, are left out.
- RunList.PagesGiveEverything: the cluster and the store stand still, and finish times are set and agree; the cursor's text form is left out.
- ForbidQueue.ExclusiveExactlyInTurn: all runs are of one Test under Forbid and none is deleted; how priors are aborted under Replace is left out.
- ParallelProtocol.PassIsCheckAll: relates the reconciler's loop to passes that nothing comes between; what comes between is in the protocol.
- Tailer.HandleIsSteps: for Puts that succeed, as in the crash model.
- ComposeGraph.NilMeansShallow: the root's name stands for the root's own spec, as the controller's lookup has it.
- Partitions.PartitionsToCreate: the partition's name is its month; its text form is left out.
- Retention.Job.RunOnce: which calls fail is a parameter; pruning of the audit log is one operation.
- Names.BoundedTryNameInjective: names beyond 63 characters differ only as their hashes do.
- Kubernetes, S3, Postgres and HTTP clients, object construction, deep copies and OpenAPI types: field copying without an invariant of its own.
- Cron scheduling, triggers, selectors, pod policy, metrics, audit, comments, statistics and webhooks: short branches or SQL that would only add easy members.
- Template merging and the expression engine: its rules are not part of this model.
