# Centilog: the road of a log line, modelled and proved

Centilog's agent tails log files, assembles stack traces, filters and redacts,
writes batches to a disk queue and only then commits file offsets. A sender
posts the batches, and an ingest service normalizes and redacts again and
appends to a Redis stream. This project models that road in Dafny and proves
what it promises: no line is lost behind a committed offset, a crash loses
nothing that was acknowledged, each batch is always in exactly one place, a
batch counts as delivered only if its records arrived, and redacting twice
equals redacting once.

## How the model is built

* Code that changes state is a class or a method with loops in the source's
  shape: `Tailer`, `StackAssembler`, `LogProcessor`, `BatchStore`, `Agent`,
  `Sender`, `RedisStream`, `IngestHandler`, `RedactCardNumbers`, `CheckLuhn`,
  `NormalizeFieldsAt`, `TruncateMessage`. Each method is proved equal to a
  function on values, and the theorems are about these functions and about runs
  made of them.
* Everything outside comes in as a parameter: the outcome of each system call,
  clock readings, random draws, the parser, JSON, the redaction rules other
  than the card rule, and the answer to each request. Theorems hold for all of
  them. A Go string is a sequence of bytes; times are nanoseconds since Go's
  zero time; a successful rename is one atomic durable step.
* The lemmas whose names end in `Meaning` say what an operation does in plain
  values: the characters, constants, statuses and sums are written out in them
  instead of the functions that the operation shares with its specification, and
  where another operation occurs it has such a lemma of its own.
* `AgentState` carries a history that the program does not have: the processed
  entries with the time and the number of random draws of their decision
  (`log`), for each entry where its record is (`fates`), the commits of offsets
  that were carried out (`commits`) and what they say has been processed
  (`settled`), the records dropped (`dropped`), those lost with a crash (`crashed`),
  those taken in while a batch file was waiting for its commit (`late`) and which
  of them a crash took (`lateCrashed`), the filter counts already drained, the
  entries released by an idle or shutdown flush (`released`), and after every
  durable effect a snapshot of what would survive (`trail`). A crash falls back
  to any snapshot since the last start, so it can strike between any two durable
  effects.

| files | content |
|---|---|
| `Text`, `Names` | byte strings, white space, letter case; text order and fixed-width batch names |
| `Schema`, `Processing` | normalization, truncation, filtering, sampling, redaction of a record |
| `Luhn`, `Cards`, `CardShapes` | the card rule (ISO/IEC 7812-1, Annex B); which texts it matches and masks |
| `Tailing`, `Stacks` | the tailer and the stack assembler |
| `Eviction`, `BatchStores`, `QueueLaws` | the disk queue; its operations in file names, sizes and contents |
| `Agents` | the agent: specification and class |
| `AgentSafety`, `AgentRuns`, `AgentRestart` | no loss behind the offset, crashes, restarts |
| `AgentSteps`, `AgentBooks`, `AgentDrops`, `AgentQueue`, `AgentReports` | an invariant principle for polls; conservation; when a record is dropped; the queue; what is returned and reported |
| `AgentShrinks`, `AgentCuts`, `CutFiles` | shrinking files: when a commit is refused; when a line can be lost; runs that lose one |
| `AgentRefinement` | the pipeline refines one pass over the whole file |
| `Ingest`, `Senders` | the ingest handler with its stream; the sender |
| `Delivery`, `Fifo`, `EndToEnd` | agent, network and ingest as one protocol |

## Where the code falls short of what is said about it

The code is modelled as it is; each point has its lemma.

* The repository's README says that batches are written before offsets advance.
  After a batch file is written and saving the offsets fails, a record taken in
  before the retry is in no file when its offset is committed.
  `AgentRestart.OneFailedSaveLosesARecord` is a concrete run;
  `AgentRestart.FlushDrops` says exactly when a flush drops records and which,
  `AgentDrops.DropsExactly` that over all runs this is how records are dropped,
  `AgentRestart.LateRecordsAreLost` that all late records go at once;
  `AgentBooks.DroppedAreLate` says over every run that the dropped records are
  the late ones, and `AgentRuns.SavesLoseNothing` that none is dropped while
  saves succeed.
* It also says that a file that shrinks is read from its beginning again. The tailer
  does so (`Tailing.ResetReads`), but a commit leaves the durable offset where it
  was when the new content already covers it, so that a later restart may pass over
  or cut new lines. `Tailing.RestartBegins` says where a restart begins after any
  row of commits, and `AgentCuts.LossOnlyIfLeftAlone` states it for runs: from the
  poll that starts a file over, and while it only grows, a line behind the committed
  offset can be lost only if every commit left the old offset alone and it lies above
  the last safe offset; where that is not so, `AgentCuts.RestartAfterCut` shows that
  nothing is lost. `CutFiles.CutFileLosesALine` gives two runs that lose a line, one
  of which restarts on a line boundary, and `CutFiles.LeftAboveIndeed` shows that
  they meet the condition.
* A commit can be refused: in a poll whose resets get as far as a commit while a
  file that also shrank in this poll, and comes later, still has a safe offset
  from before. `AgentShrinks.RefusedExactly` states that this is the only way, over
  all runs, and `AgentShrinks.TwoCutFilesAreRefused` is such a run. The driver
  polls and then flushes, and a flush that succeeds leaves no safe offset
  (`AgentSteps.FlushFrame`), so `AgentShrinks.NeverRefusedThoughShrinking` covers
  the runs whose flushes succeed.
* Normalization is stable across agent and ingest exactly when no supplied time
  lies strictly inside the first millisecond after the zero time, and, for the
  ingest form, the truncated message is not blank (`Schema.NormalizedTwice`,
  `Schema.NormalizeTwice`, `Schema.BlankAfterTruncation`).

## Model

| member | source | states |
|---|---|---|
| EndToEnd.EveryLineIsPlaced | cmd/agent/agent.go:46-157 | agent, sender, network and ingest together, append-only files, fresh batch names: each complete line at or before a committed offset belongs to an entry of exactly the file's lines, decided by the configured rules at the time of a poll or shutdown; unless filtered or dropped as late, its own record, by its number, is in one published batch, which is in exactly one of pending, claimed, failed, delivered, evicted, and if delivered this very record of the batch was appended to the stream or rejected |
| AgentBooks.NoLossBehindOffset | cmd/agent/agent.go:46-157 | in every append-only run, with writes, saves and crashes as they come, each complete line at or before a committed offset is held by an entry of exactly the file's lines which was filtered, or whose own record is in a published batch or among the late ones that were dropped, entries and records being matched one by one; the held-back entry lies behind the offset |
| AgentRuns.RunSound | cmd/agent/agent.go:46-157 | the invariant behind it holds after every event: committed, processed, held back and read positions in this order and on line boundaries, and the same for every durable moment |
| AgentRuns.CommitsNeverRefused | cmd/agent/tailer.go:120-138 | in append-only runs every safe offset is at most the read offset, so no commit is refused |
| AgentRuns.SavesLoseNothing | cmd/agent/agent.go:132-143 | where every save of the offsets succeeds, no batch file is ever left waiting and no record is dropped |
| AgentSafety.PollSound | cmd/agent/agent.go:46-88 | one poll keeps the invariant whatever the disk does |
| AgentSafety.FlushSound | cmd/agent/agent.go:128-146 | one flush keeps the invariant whatever fails |
| AgentSafety.FlushAllSound | cmd/agent/agent.go:90-103 | the shutdown flush keeps the invariant, stopping at the first error |
| AgentSafety.CommitMoves | cmd/agent/tailer.go:120-138 | a commit moves every committed offset exactly to what has been processed |
| AgentRestart.RestartCovers | cmd/agent/tailer.go:30-56 | after a crash between any two durable effects the restart begins on a line boundary of every file, and each complete line the file then delivers was settled before or is read again |
| AgentRestart.RestartReads | cmd/agent/tailer.go:59-118 | a restarted tailer reads every complete line behind its start offset |
| AgentRestart.FlushDrops | cmd/agent/agent.go:128-146 | a flush drops exactly the records that are in no batch file when a file is already waiting and its commit goes through, and otherwise none |
| AgentRestart.LateRecordsAreLost | cmd/agent/agent.go:132-143 | all records taken in while a batch file waits, however many and whether or not they fill a batch, are dropped by the flush whose commit goes through: nothing more is written, and the committed offset reaches the end of the last line |
| AgentRestart.OneFailedSaveLosesARecord | cmd/agent/agent.go:132-143 | a concrete run: one failed save, one poll of three lines, and a committed offset whose record was never written |
| AgentBooks.EachRecordOnce | cmd/agent/agent.go:109-157 | in every run, shrinking files included, each kept record is published, dropped, lost with a crash or in the unwritten batch exactly once: the entries of each of these fates are, one by one and in order, the records there; without drops and crashes the published records are the kept ones in order |
| AgentBooks.DroppedAreLate | cmd/agent/agent.go:132-145 | in every run the records taken in while a batch file was waiting are exactly the dropped ones, those of them that a crash took, and the ones that wait still; in this order where a crash took none |
| AgentDrops.DropsExactly | cmd/agent/agent.go:128-146 | over every run, crashes and shrinking files included: a record is ever dropped if and only if some flush of the run, in a poll or outside, finds a batch file waiting and records that are in none, and its commit goes through |
| AgentDrops.EventDrops | cmd/agent/agent.go:46-146 | what a poll, flush or shutdown drops is, in order, what its flushes drop |
| AgentBooks.CountersMatch | cmd/agent/agent.go:109-126 | without crashes, each filter counter plus all its drained counts is the number of entries filtered for that reason, and every other entry was kept |
| AgentSteps.BatchStaysBelowSize | cmd/agent/agent.go:121-125 | unless a flush failed, processing leaves fewer records than a batch holds |
| AgentSteps.PollKeeps | cmd/agent/agent.go:46-88 | whatever every small step of the agent keeps, a poll of arbitrary files keeps |
| AgentSteps.FlushFrame | cmd/agent/agent.go:128-157 | a flush that succeeds leaves no safe offset and no record; any flush leaves assembler, read positions and entries alone |
| AgentReports.PollReports | cmd/agent/agent.go:46-88 | a poll reports an error exactly when a file could not be read or a write or a commit failed; what it returns and what stays in the batch are, in order, what was in the batch and what was kept; and each batch it publishes is full |
| AgentReports.ShutdownReports | cmd/agent/agent.go:90-107 | the same for a shutdown and for a flush, whose batches hold at least one record |
| AgentReports.IdleReleases | cmd/agent/agent.go:70-81 | whatever the assembler has been through, a poll releases a file's held-back entry exactly when the last line of that file came in at least the flush interval ago, or five seconds when none is set |
| AgentReports.ProcessMeaning | cmd/agent/agent.go:109-126 | an entry moves the safe offset of its file to its end, its record joins the batch if it is kept, and a flush follows exactly when the batch has then grown to its size |
| AgentQueue.LinesAreTraced | cmd/agent/agent.go:46-157 | each complete line behind a committed offset can be followed to its entry and its decision, and by the entry's number among those of its fate to its own record: the dropped one with that number, or the record at that number in the published batches, whose batch is in exactly one place |
| AgentQueue.RunQueued | cmd/agent/buffer.go:51-183 | with fresh names, the queue stays accounted for through all events of the agent, the sender's operations, crashes and recoveries |
| AgentQueue.RunDecided | cmd/agent/agent.go:109-126 | every entry of every run was decided by the configured rules, at the time of a poll or shutdown of the run |
| AgentShrinks.RefusedExactly | cmd/agent/agent.go:49-59 | over every run, whatever the files do: between events every safe offset has been read, so a commit is allowed; and some commit was refused if and only if some poll had a reset that attempts a commit while a file reset later in this poll still had a safe offset past what was read of it |
| AgentShrinks.PollRefused | cmd/agent/agent.go:46-88 | the same condition for one poll |
| AgentShrinks.ResetRefused | cmd/agent/agent.go:49-59 | one reset is refused its commit if and only if its held-back entry is kept and fills the batch, a batch file waits or the write succeeds, and another file's safe offset lies past what was read |
| AgentShrinks.TwoCutFilesAreRefused | cmd/agent/agent.go:49-59 | a concrete run: a failed write leaves a safe offset, both files are cut, and the first reset is refused its commit |
| AgentShrinks.NeverRefusedThoughShrinking | cmd/agent/agent.go:49-59 | so no commit is refused when each poll starts with no safe offset left over |
| AgentRefinement.PipelineRefinesOneShot | cmd/agent/agent.go:46-146 | without crashes and part-way releases, what was kept of a drained file is one pass over the whole file: group its lines, then decide each entry at the time of an event, a poll or shutdown, in the order of the events, and with draws that no entry before it has used, whatever the poll schedule, batch size and failures; with nothing dropped and nothing left in memory, these are in order the published records that came from this file |
| AgentRefinement.RunsRefineGrouping | cmd/agent/agent.go:60-81 | at every moment of such a run the entries given plus the one held back are the grouping of the lines fed so far |
| AgentRefinement.ScheduleDoesNotMatter | cmd/agent/agent.go:46-146 | under rules without chance and a parser that does not look at the time, two runs with different polls, clocks, batch sizes and failures give the same entries of a file and keep records of the same ones, in order and equal up to the time fields, the flags about them and the redaction mark |
| AgentRefinement.AKeepingRunExists | cmd/agent/agent.go:46-146 | a concrete run that meets these hypotheses and keeps and publishes a record |
| Agents.Agent.constructor | cmd/agent/agent.go:27-44 | a new agent starts from the offsets and the queue it finds, with nothing in memory |
| Agents.Agent.PollFiles | cmd/agent/agent.go:46-88 | one poll: resets, new lines, idle flushes, and a commit when the batch is empty |
| Agents.Agent.ResetFile | cmd/agent/agent.go:49-59 | a file that shrank: safe offset 0, and its held-back entry processed at offset 0 |
| Agents.Agent.AddOne | cmd/agent/agent.go:60-68 | one line goes to the assembler, and what it completes is processed |
| Agents.Agent.FlushIdleFile | cmd/agent/agent.go:73-81 | an entry held back too long is processed |
| Agents.Agent.FlushAll | cmd/agent/agent.go:90-103 | the shutdown flush, stopping at the first error |
| Agents.Agent.ProcessOne | cmd/agent/agent.go:109-126 | one entry: decision, safe offset, counters, batch, flush when full |
| Agents.Agent.FlushCurrentBatch | cmd/agent/agent.go:128-146 | write unless a file is waiting, commit, and only then forget the batch |
| Agents.Agent.CommitOffsets | cmd/agent/agent.go:148-157 | the safe offsets are kept unless the commit went through |
| Agents.Agent.DrainFilterCounts | cmd/agent/agent.go:159-164 | returns and clears both counters and changes nothing else |
| Tailing.TailingIndependent | cmd/agent/tailer.go:58-118 | over any number of polls of growing files, the lines of a file are the complete lines between its first and last read position, which tile those bytes; a partial tail is never given out |
| Tailing.ReadPathAppending | cmd/agent/tailer.go:59-118 | the same for one file in one poll in which the other files do anything |
| Tailing.ReadAllAppending | cmd/agent/tailer.go:59-118 | the same for one poll of all files, which resets none and commits nothing |
| Tailing.BetweenTiles | cmd/agent/tailer.go:98-113 | the lines cut the consumed bytes without gap or overlap; each text is its bytes without the newline at the end and without a carriage return before that |
| Tailing.PollMeaning | cmd/agent/tailer.go:59-118 | a poll reports an error exactly when a file could not be opened, sized, positioned or read, and starts over exactly the files shorter than what was read of them |
| Tailing.CommitMeaning | cmd/agent/tailer.go:120-138 | after a commit each committed path is at or below its read position; it moves down only if the read position had fallen below it; and it ends at the safe offset exactly unless it stood above that and is still covered |
| Tailing.RestartBegins | cmd/agent/tailer.go:120-138 | after any commits with safe offsets that never fall, a tailer that loads the offsets begins at the last safe offset carried out, unless every commit carried out left the old offset alone and it lies above: then there; so it misses the first complete line behind the last safe offset if and only if that is so and there is such a line |
| Tailing.MissedLine | cmd/agent/tailer.go:98-113 | a line missed in this way is not given out at all, or only its rest, each without its terminator |
| AgentCuts.LossOnlyIfLeftAlone | cmd/agent/agent.go:46-157 | in every run from the poll that finds a file cut, while it then only grows, other files doing anything: the commits meet that condition's hypotheses; new lines up to the last safe offset are settled; a new line behind the committed offset can be lost only if every commit left the old offset alone and the line lies above the last safe offset and not above the old one; and a restart misses the first new line behind the last safe offset if and only if every commit left the old offset alone, it lies above, and there is such a line |
| AgentCuts.RestartAfterCut | cmd/agent/tailer.go:30-118 | where that condition does not hold, each line the file then delivers was settled or is read by the restarted tailer, which begins on a line boundary |
| AgentCuts.CommitsOfRun | cmd/agent/tailer.go:120-138 | in every run, whatever the files do, the committed offsets now and at every durable moment are what the commits carried out make of none |
| Tailing.ResetReads | cmd/agent/tailer.go:84-115 | a poll that finds a file cut starts it over: everything it gives out, and where it stops, lies on line boundaries of the new content |
| CutFiles.CutFileLosesALine | cmd/agent/tailer.go:120-138 | two concrete runs of the agent: a file read past its committed offset is cut, reset and committed, the committed offset stays inside the new first line or at its end, and after a crash no reading gives that line out |
| CutFiles.LeftAboveIndeed | cmd/agent/tailer.go:127-131 | these runs meet the hypotheses and the condition of AgentCuts.LossOnlyIfLeftAlone |
| Tailing.Tailer.NewTailer | cmd/agent/tailer.go:30-56 | loads the offsets, refusing unreadable, undecodable or negative ones, and reads on from them |
| Tailing.Tailer.ReadLines | cmd/agent/tailer.go:98-113 | the reader's loop gives the complete lines from an offset and stops behind the last newline; the lines tile these bytes, each text being its bytes without the newline and without a carriage return before it |
| Tailing.Tailer.ReadNewLines | cmd/agent/tailer.go:59-118 | one poll of all files with every error path |
| Tailing.Tailer.CommitOffsets | cmd/agent/tailer.go:120-138 | all or nothing: one invalid offset or a failed save leaves the committed offsets |
| Stacks.AssemblerGroups | cmd/agent/tailer.go:205-224 | fed the lines of a file, the assembler has given out and holds back exactly their grouping: an entry line with its maximal run of continuations, or a lone orphan |
| Stacks.EntriesBlock | cmd/agent/tailer.go:205-224 | the grouping: an entry line takes all continuations up to the next entry line |
| Stacks.EntriesSnoc | cmd/agent/tailer.go:205-224 | the grouping grows by the assembler's rule when one more line arrives |
| Stacks.FilesAreIndependent | cmd/agent/tailer.go:205-241 | any interleaving of files with any flushes gives each file what it would have got alone |
| Stacks.OutputsReproduceInput | cmd/agent/tailer.go:205-241 | under any flushes a file's outputs and its held-back entry reproduce its lines in order |
| Stacks.OutputsRise | cmd/agent/tailer.go:205-241 | and they end at increasing offsets |
| Stacks.ContinuationMeaning | cmd/agent/tailer.go:243-253 | a line continues an entry exactly when it begins with a white-space character, with "Caused by:" or with three dots |
| Stacks.IdleMeaning | cmd/agent/tailer.go:205-241 | after any lines and flushes, an idle flush hands out the held-back entry of a file exactly when the last line of that file, of whatever kind, came in at least the idle time ago |
| Stacks.StackAssembler.AddLine | cmd/agent/tailer.go:205-224 | one line |
| Stacks.StackAssembler.FlushPath | cmd/agent/tailer.go:226-231 | takes the held-back entry of one file |
| Stacks.StackAssembler.FlushIdlePath | cmd/agent/tailer.go:233-241 | takes it only after the idle time |
| Processing.LogProcessor.ProcessDetailed | cmd/agent/processor.go:33-47 | the decision on a line, drawing at most one random number |
| Processing.DecideMeaning | cmd/agent/processor.go:33-47 | the parsed record, with the configured host and environment, is normalized at the time of the poll; filtered by level exactly when its level comes before the minimum level among trace, debug, info, warn, error and fatal, without a draw; otherwise its level's rate, 100 when none is set: at or below 0 filters and at or above 100 keeps, without a draw, and a rate between takes one draw and keeps exactly when the draw falls below it; what is kept is that record redacted |
| Processing.DecideAlike | cmd/agent/processor.go:33-47 | under rules without chance and a parser that does not look at the time, a line decided at another time with other draws gets the same decision, and its record differs in the time fields, the flags about them and the redaction mark only |
| Processing.Redact | internal/redact/redact.go:24-50 | message and attributes masked; the flag set when anything changed and never cleared |
| Processing.RedactedMeaning | internal/redact/redact.go:24-50 | the message and each value of an ordinary key go through the rules and the card rule, a non-empty value of a sensitive key becomes the mask, no key comes or goes, no other field changes, and the flag is set exactly when it was or something changed |
| Processing.RedactedTwice | internal/redact/redact.go:24-50 | redacting a record again changes nothing when the rules other than the card rule find nothing more |
| Cards.RedactCardNumbers | internal/redact/redact.go:73-86 | the right-to-left rewrite, whose boundary tests read rewritten text, equals simultaneous replacement of the matches judged on the original text |
| CardShapes.CardIsMasked | internal/redact/redact.go:73-118 | between texts without digits, a number written with at most one space or hyphen between neighbouring digits becomes the mask exactly when it has 13 to 19 digits and their sum by pairs from the right, with a table for the doubled ones, is a multiple of ten; with fewer digits or another sum it stays |
| CardShapes.MatchMeaning | internal/redact/redact.go:20 | a match is the longest text of that shape at its start, of 13 to 19 digits, and none is found exactly when no such text starts there |
| CardShapes.FindAllMeaning | internal/redact/redact.go:74 | the matches of a text are the only row of non-overlapping texts of that shape, each the longest at its start, outside which none starts |
| CardShapes.MaskedMeaning | internal/redact/redact.go:75-84 | a match becomes the mask exactly when no digit stands before or behind it and its sum is a multiple of ten |
| Cards.RewrittenStep | internal/redact/redact.go:75-84 | one step of it: the boundary digits of a match are those of the original text |
| Cards.TouchingNeverMasked | internal/redact/redact.go:77-79 | a match that begins right behind a digit is never masked, and rewriting the rest does not change whether a digit follows |
| Cards.PassIsReplace | internal/redact/redact.go:73-86 | simultaneous replacement equals one left-to-right pass |
| Cards.RedactedTwice | internal/redact/redact.go:73-86 | redacting cards twice equals redacting once, on every string |
| Luhn.CheckLuhn | internal/redact/redact.go:88-118 | the loops decide the Luhn test for 13 to 19 digits with spaces and hyphens |
| Luhn.PassesMeaning | internal/redact/redact.go:88-118 | passing means: 13 to 19 digits, mixed with spaces and hyphens in any way and with nothing else, whose sum by pairs from the right, with a table for the doubled ones, is a multiple of ten |
| Luhn.SumFromRight | internal/redact/redact.go:104-116 | the sum with every second digit from the right doubled |
| Luhn.SingleDigitError | internal/redact/redact.go:88-118 | changing one digit of a passing number makes it fail |
| Luhn.AdjacentSwap | internal/redact/redact.go:88-118 | swapping adjacent digits goes unnoticed exactly when they are equal or 0 and 9 |
| Luhn.ExactlyOneCheckDigit | internal/redact/redact.go:88-118 | each payload of 12 to 18 digits has exactly one passing check digit |
| Schema.TruncateMessage | internal/schema/schema.go:140-149 | the loop cuts at the last character start within the limit |
| Schema.TruncatedMeaning | internal/schema/schema.go:140-149 | on any bytes: a message within the limit stays; a longer one is cut at the last place within the limit before which a byte outside 0x80 to 0xBF follows, or at 0 |
| Schema.TruncationKeepsUtf8 | internal/schema/schema.go:140-149 | a valid UTF-8 message over the limit becomes its longest valid prefix within it, at most three bytes below (RFC 3629, section 3) |
| Schema.NormalizeFieldsAt | internal/schema/schema.go:99-130 | level, time correction, ingest time and message of a record at a reference time |
| Schema.NormalizedMeaning | internal/schema/schema.go:99-130 | a missing event time, and one more than five minutes ahead, become the reference time, flagged by "timestamp_missing" or by "timestamp_corrected" and "timestamp_skew_ms" with the lead in decimal milliseconds; every time is cut to a millisecond, the message to 16,384 bytes; only level, times, flags and message change |
| Schema.LevelMeaning | internal/schema/schema.go:34-51 | with the white space at both ends taken away, a level spelled in any letter case like one of the known names gets the name of its group, and any other "info" |
| Schema.LevelRankMeaning | internal/schema/schema.go:54-71 | the rank is the place among trace, debug, info, warn, error and fatal |
| Text.BlankMeaning | internal/schema/schema.go:80-91 | a field counts as missing exactly when it is nothing but UTF-8 encoded white-space characters |
| Schema.NormalizedTwice | internal/schema/schema.go:99-130 | normalizing again later changes nothing if and only if no supplied time lies strictly inside the first millisecond after zero |
| Schema.NormalizeTwice | internal/schema/schema.go:79-96 | for the validating form, also if and only if the truncated message is not blank |
| Schema.BlankAfterTruncation | internal/schema/schema.go:79-96 | a message with which any otherwise complete record is accepted once and refused when normalized again, at whatever time |
| Schema.NormalizeLevelTwice | internal/schema/schema.go:34-51 | level names are stable |
| Names.NamesInTimeOrder | cmd/agent/buffer.go:250-256 | batch names compare as text in the order of their timestamps, whatever their random parts |
| Names.NameMeaning | cmd/agent/buffer.go:250-256 | a name is year, month, day, "T", hour, minute, second, "." and nanoseconds in decimal fields of fixed width, "Z-", the random bytes in hexadecimal, and ".json.gz" |
| QueueLaws.EvictMeaning | cmd/agent/buffer.go:190-239 | the limit counts bytes: afterwards the sizes of the files ending in ".json.gz" sum up to at most the limit, or all that is left of them cannot be removed; only such files go, with their contents recorded, the oldest first, and each only while what was left with it exceeds the limit |
| QueueLaws.PublishMeaning | cmd/agent/buffer.go:51-97 | a write that succeeds publishes the records under such a name, with the size that was written, and the limit then holds with it; one that fails changes nothing |
| QueueLaws.ClaimMeaning | cmd/agent/buffer.go:99-115 | the first batch file in text order that can be renamed gets ".sending" behind its name and keeps its contents; none is claimed exactly when none can be renamed |
| QueueLaws.ReturnMeaning | cmd/agent/buffer.go:117-130 | a claim loses its ".sending" and the limit is enforced; a claim that is gone is no error; another name or a failed rename changes nothing |
| QueueLaws.GoneMeaning | cmd/agent/buffer.go:132-152 | a claim that is deleted or quarantined leaves the directory and is recorded under its own name; a claim that is gone counts as deleted but not as quarantined |
| QueueLaws.RecoveredMeaning | cmd/agent/buffer.go:161-183 | a recovered claim gets its own name, or when that is taken the name with "-recovered-" and the time in decimal before the suffix |
| QueueLaws.RecoverLeavesNone | cmd/agent/buffer.go:161-183 | after a recovery that succeeds no file ends in ".json.gz.sending" |
| Eviction.EvictionEnough | cmd/agent/buffer.go:215-239 | afterwards the pending total fits, or every pending batch left is one whose removal failed; a claimed batch is never a victim |
| Eviction.EvictionMinimal | cmd/agent/buffer.go:215-239 | when removals succeed the victims are the shortest sufficient prefix, oldest first |
| BatchStores.ConservedOverRuns | cmd/agent/buffer.go:51-183 | under every interleaving of operations and restarts each published batch is in exactly one of pending, claimed, failed, delivered and evicted, with its contents |
| BatchStores.OpAccounted | cmd/agent/buffer.go:51-183 | the same for one operation with any outcome of its system calls |
| BatchStores.RecoverAccounted | cmd/agent/buffer.go:161-183 | recovery returns every claim to its own name: with fresh names the marked name is never used |
| BatchStores.BatchStore.NewBatchStore | cmd/agent/buffer.go:31-48 | opens a queue, or refuses on a bad limit or a claim that cannot be recovered |
| BatchStores.BatchStore.WriteBatch | cmd/agent/buffer.go:51-97 | publishes under a new name and then enforces the limit |
| BatchStores.BatchStore.ClaimOldestBatch | cmd/agent/buffer.go:99-115 | claims the first pending name whose rename succeeds |
| BatchStores.BatchStore.UnclaimBatch | cmd/agent/buffer.go:117-130 | returns a claim; a file that is gone is no error |
| BatchStores.BatchStore.DeleteClaimed | cmd/agent/buffer.go:132-139 | deletes a delivered batch |
| BatchStores.BatchStore.MoveClaimedToFailed | cmd/agent/buffer.go:141-152 | quarantines a rejected batch |
| BatchStores.BatchStore.PendingCount | cmd/agent/buffer.go:154-159 | the number of pending batches |
| BatchStores.BatchStore.RecoverAllClaims | cmd/agent/buffer.go:161-183 | stops at the first rename that fails |
| BatchStores.BatchStore.PendingBatches | cmd/agent/buffer.go:190-213 | the pending names in text order with their sizes |
| BatchStores.BatchStore.EnforceLimit | cmd/agent/buffer.go:215-239 | the removal loop, passing over files it cannot remove; what it removes, in bytes, is QueueLaws.EvictMeaning |
| Ingest.IngestHandler.LogsRequest | cmd/ingest/handler.go:69-150 | one request, every status and both counts; what they mean is Ingest.AdmissionMeaning and Ingest.StatusMeaning |
| Ingest.AdmissionMeaning | cmd/ingest/handler.go:69-107 | 405, 401, 503, 429, the status of a body that cannot be read, 400 and 413, in the order of the checks and with their limits of 1,000,000 entries and 10,000 logs, leave the stream as it is; only the 429 asks to wait |
| Ingest.IngestHandler.SerializeLogs | cmd/ingest/handler.go:109-134 | the loop: the kept logs in order, each as the encoding of what becomes of its decoded log, and kept plus rejected is all |
| Ingest.SerializeMeaning | cmd/ingest/handler.go:111-133 | a raw log is rejected exactly when it cannot be decoded, misses a required field or cannot be encoded; otherwise its text encodes the one record with the service and retention of the identity, the truncated message redacted, each value of a sensitive key masked and each other one redacted, and the second reading of the clock cut to a millisecond |
| Ingest.SerializeAllMeaning | cmd/ingest/handler.go:109-134 | the texts of a request are those of its logs that are not rejected, in their order |
| Ingest.RedisStream.AddBatch | cmd/ingest/main.go:77-100 | a pipeline that can succeed in part: what landed, what was acknowledged, and when it is an error |
| Ingest.AcceptedLanded | cmd/ingest/handler.go:136-149 | 202 exactly when there was nothing to append or every command was acknowledged, and then everything landed in order |
| Ingest.StatusMeaning | cmd/ingest/handler.go:109-149 | of an admitted request the texts whose command was carried out are appended in order; the counts are those of the acknowledged commands and the rejected logs; 202 exactly when every command was acknowledged and the pipeline went well, or there was nothing to append, and then everything is appended and the counts add up |
| Ingest.OvershootBounded | cmd/ingest/handler.go:82-147 | with at most n requests between check and append and a consumer that only removes, the stream never exceeds 1,000,000 + n * 10,000 entries |
| Ingest.OvershootReached | cmd/ingest/handler.go:82-147 | that bound is reached |
| Senders.Sender.Run | cmd/agent/sender.go:62-123 | the loop over arbitrary answers and file outcomes, with its pauses; what one turn does is Senders.TurnMeaning |
| Senders.TurnMeaning | cmd/agent/sender.go:62-203 | no batch: a pause of a second. 202 and removed: delivered, no pause, delay back to a second. 400 or 413 and moved: quarantined, no pause. Otherwise the batch is given back under the limit, and a 429 with k >= 0 seconds pauses k seconds or the longest duration, with only a date until then or not at all, leaving the delay; everything else pauses for the delay, which doubles up to a minute |
| Senders.SettleMeaning | cmd/agent/sender.go:77-121 | a claimed batch leaves the queue as delivered only on 202 and as failed only on 400 or 413, and exactly when the file operation succeeds too; otherwise it returns with its contents or is evicted, and when returning it fails nothing changes and it stays claimed |
| Senders.RetryAfter | cmd/agent/sender.go:181-196 | never a negative wait, nothing exactly without a usable header, saturating at the longest duration |
| Senders.NextDelay | cmd/agent/sender.go:198-203 | grows and never beyond a minute |
| Senders.DelayWithin | cmd/agent/sender.go:62-123 | the delay stays between a second and a minute through any turns |
| Senders.DelayDoubles | cmd/agent/sender.go:198-203 | after k fruitless turns the delay is 2^k seconds, capped at a minute |
| Senders.FruitlessRun | cmd/agent/sender.go:114-121 | a run of fruitless turns waits exactly these delays |
| Delivery.DeliveredMeansArrived | cmd/agent/sender.go:62-123 | under partial appends, lost and late answers, retries and restarts, a batch is deleted as delivered only if a call with its very records was answered 202 and each record was rejected or that call appended what Ingest.SerializeMeaning says becomes of it |
| Delivery.QuarantinedMeansRefused | cmd/agent/sender.go:93-101 | a batch is quarantined only if a call with its very records was answered 400 or 413 |
| Delivery.CopiesWithinAttempts | cmd/agent/sender.go:62-123 | a record has at most as many copies in the stream's history as its batch was posted |
| Delivery.CallIsHandle | cmd/ingest/handler.go:82-149 | an uninterrupted call of the protocol is answered as the handler answers, and lands what the handler appends |
| Delivery.PostMeaning | cmd/agent/sender.go:62-77 | a claim and a post make one call with the claimed batch's name and records, for which the sender waits |
| Delivery.RoundIsTurn | cmd/agent/sender.go:62-123 | whatever happens to that call, its answer, or giving up on it, does to the queue what the same turn of the sender's loop does, and the sender is free again |
| Delivery.FullStreamWaits | cmd/ingest/handler.go:82-86 | a call that finds more than 1,000,000 entries is answered with a 429 that makes the sender pause for five seconds |
| Delivery.PrepareIsSerializeAll | cmd/ingest/handler.go:109-134 | the entries of a call are those of the handler's loop |
| Fifo.FirstInFirstOut | cmd/agent/buffer.go:99-130 | with strictly increasing clocks and successful renames, names are claimed in non-decreasing and delivered in strictly increasing order, across retries, eviction, quarantine and restart |

## Left out

- AgentBooks.NoLossBehindOffset: for append-only files only, because for shrinking files it is false (CutFiles.CutFileLosesALine; AgentCuts.LossOnlyIfLeftAlone says what holds instead), and counts the late records as dropped, because losing them is what the code does.
- AgentRefinement.ScheduleDoesNotMatter: assumes a parser that ignores the poll time and rates at or below 0 or at or above 100, because otherwise the program's own result depends on when a line is read and on draws; even then the ingest time and a corrected timestamp do, so the records are equal up to those, the flags about them and, where a rule touches such a flag, the redaction mark. AgentRefinement.PipelineRefinesOneShot needs no such hypothesis.
- AgentRefinement.PipelineRefinesOneShot: for runs without crashes, because a crash makes lines be read and decided again.
- AgentCuts.LossOnlyIfLeftAlone: while the file only grows after it was cut (a further cut begins a new account), and for crashes that fall back to a moment since; a crash inside the run must find the condition false, since behind it the agent no longer stands on the new lines. A line that meets the condition may still have been published by a batch whose commit failed.
- AgentQueue.LinesAreTraced: assumes, like EndToEnd.EveryLineIsPlaced and BatchStores.ConservedOverRuns, that no batch name is drawn twice; the program relies on the clock and eight random bytes for that.
- Fifo.FirstInFirstOut: assumes that renames succeed, because a batch whose rename fails is passed over by the program.
- AgentRuns.Run: begins with no offsets and an empty queue; beginning with existing ones is a restart of an earlier run.
- Line parsing (`cmd/agent/parser.go`): an uninterpreted function of the entry and the poll time, because JSON, time zones and calendar layouts are library work.
- Redaction rules other than the card rule, and the list of sensitive keys: uninterpreted functions; idempotence of the whole message redaction is not claimed.
- Processing.RedactedTwice: assumes that the rules other than the card rule find nothing more in a redacted record.
- Gzip, JSON and fsync: encoding and decoding are functions, a batch file holds its records, and a successful rename is durable; the Windows rename path, permissions and temporary files are not modelled.
- Integer widths: offsets, sizes and counters are unbounded; only the saturation of durations is modelled.
- Unicode letter case: `Text.ToLower` changes the ASCII capitals and the dotted capital I, the letters whose small form can occur in a level name.
- A crash between publishing a batch and evicting others counts as a crash after both, since only the names still present differ; and a crash may fall back to any durable moment since the last start, which includes the last one.
- The sender's operations fall between polls and flushes of the agent, not inside one; they never touch what was published, which is all the agent's safety depends on.
- Failures to list the queue directory inside eviction, counting and recovery; a listing that fails when claiming is modelled.
- The server-clock warning of the sender, the refresh of API keys, health checks, tickers, signals, configuration loading and log output: they decide nothing about a record.
- The web dashboard, the Query API, login and alerting: user interface and SQL whose meaning lies outside this code.
