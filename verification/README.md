# rexec, modelled in Dafny

`rexec` is a per-user host that runs commands for several coding agents at once. Each command
runs in its own PTY; its raw output goes to one shared console, in order; its filtered output
goes back to the client; and every run is journalled and sent to attached viewers. Clients talk
to the host in lines over a socket; the MCP server keeps a pool of such sockets.

This project models the two concurrent systems at the heart of it, and the sequential code they
rest on, and proves what each keeps over every run.

**The host.** `Commands` is one command: its connection worker, PTY reader, timeout thread, abort
watcher and console job, each taking one atomic step at a time (one critical section, one join,
one signal, one read). `Hosts` puts any number of commands, connections and attachments
together with what they share: the print ticket, the transcript queue and the console.
`Hosts.Inv` is the inductive invariant; `HostTheorems`, `Attachments`, `Outcomes` and `Completion`
state what follows for every run from a fresh start. `Histories` shows that the state of a command
tells truly of the steps that led to it, so that results can be stated from the steps.

**The sockets.** `Sessions` is the host's side of a connection, `Wires` couples it with a client
through a queue of lines in each direction, where any read may time out and any write may fail,
and `Pools` has any number of such wires, tool calls, and the reconnect worker. `Service`,
`PoolService` and `PoolRuns` say what a client and a caller can rely on: when a connection ends, what
is written on it, why the pool ever closes one, and that calls can be served.
`Completion.RunsRefineTheSession` shows that the threads of a command implement the session, line
for line and reply for reply, so the two systems speak of the same host.

**The sequential code.** `OutputFilters`, with `FilterGrammar` and `Utf8`; `ShellQuoting` and
`Rendering`; `TranscriptFiles`; `PtyExec`, whose child and errno pipe decide in the host what a
command's worker finds there. Loops and in-place state of the source are methods and
classes here (`OutputFilter.Push`, `TranscriptQueue.Submit`, `ConnectionState.Acquire`,
`RenderUntilEof`, ...). Each is proved equal to a specification function, and the step systems
and the lemmas use that same function.

Text is modelled as its UTF-8 bytes. Commands are indexed by their sequence number, so `next_seq`
is the number of commands. The tags on pings and requests are not on the wire: they name the
message an answer was really written for, so that the framing theorems can say that it is the
message the client takes it to answer. `owners` in a pool and `log` in a host are likewise records
that no step looks at.

## Where the code differs from its documentation

The code is modelled; these are the places where a reader of the documentation would expect
something else.

- The journal is documented as one line per command in arrival order (README.md:481-484). A worker
  that returns between taking a number and `submit` (src/host.rs:494-496, src/host.rs:603-606)
  leaves a gap that no later record passes. `HostTheorems.JournalIsExact` gives the exact journal,
  `HostTheorems.JournalStopsAtTheAbandoned` the exact length once every worker is through, and
  `HostTheorems.JournalCanStall` a run in which a completed command is never journalled. The print
  queue has no such gap, since its job is queued before either return: from every run whose workers
  are all through the host can go on to print every block, those of abandoned commands included
  (`HostTheorems.AbandonedCommandsArePrinted`).
- "Entries completed before attachment are not sent" (README.md:464). A record that waits behind a
  gap is sent to an attachment that comes later (`TranscriptQueues.AttachmentHearsWhatWaited`).
  `Attachments.CompletedBeforeIsSentIfItWaited` says exactly which: an entry completed before the
  attachment is sent to it if and only if an earlier command was then not complete and the journal
  has come to the entry since.
- "Single-character ESC sequences are removed" and control strings are "terminated by BEL or ST"
  (README.md:344-345). `ESC ( B` leaves the `B`, and a BEL right after an ESC does not end a control
  string (`FilterGrammar.DesignationLeavesItsFinal`, `FilterGrammar.EscapedBelDoesNotClose`).
  `FilterGrammar` is the grammar the code does implement, with its own byte ranges.
- Filtered text need not be UTF-8 even when the output is: an ESC before a multi-byte character
  swallows its first byte (`Utf8.HalfACharacter`). `Utf8.FilterPreservesUtf8` gives the exact
  condition.
- `not_found` is documented for `execvp` and `spawn_failed` for `chdir` and `setenv`
  (README.md:432-433). The code answers `not_found` for any call of the child that fails, as long as
  its errno gets through the pipe (src/host.rs:611-614). `Outcomes.NotFoundIsAFailedStart` is the exact
  condition, for every run, and `Outcomes.FailedChdirIsNotFound` a run with a failed `chdir`;
  `Outcomes.SpawnFailedMeansRefused` is the exact condition for `spawn_failed`.
- A command's timeout (README.md:142) is cancelled as soon as its PTY reaches end of file, before
  the child is waited for. `Outcomes.TimedOutMeansExpiredFirst` says exactly when a command is answered
  `timeout`, for every run, and
  `Outcomes.TimeoutIsCancelledBeforeTheReap` gives, for any request with a
  timeout, a run in which it is cancelled, the child is reaped later, and no error is reported.
- The filter does not always take the colour out of a rendered header: an identity or a directory
  that ends in the middle of an escape sequence, other than a control string, shows.
  `Rendering.ColourIsErased` is the exact condition, `Rendering.OpenFieldShowsThrough` the shortest
  identity that shows, and `Rendering.OpenSequenceCoincides` the kind of coincidence that is excepted.

## Model

| member | source | states |
|---|---|---|
| OutputFilters.OutputFilter.Push | src/filter.rs:21-60 | One chunk, in place: what is appended and the new state are those of the transducer on values, from the old state. |
| PtyBuffers.OneMoreRead | src/host.rs:757-775 | One more read extends the stream, the filtered stream and the filter's state as one run over the longer stream would. |
| OutputFilters.EndStateConcat | src/filter.rs:21-60 | The state after two chunks is the state after their concatenation. |
| OutputFilters.OutputConcat | src/filter.rs:21-60 | The output of a concatenation is the output of its parts, the second one from the state the first one left. |
| OutputFilters.ChunkingIsInvisible | src/filter.rs:21-60 | For every split of a stream into chunks, the accumulated output is that of the whole stream. |
| OutputFilters.OutputIsClean | src/filter.rs:21-60 | No ESC and no CR in the output, from any state, and it is no longer than the input. |
| OutputFilters.CleanTextIsFixed | src/filter.rs:21-60 | Text passes unchanged if and only if it has no ESC and no CR. |
| OutputFilters.FilteringIsIdempotent | src/filter.rs:21-60 | Filtering twice is filtering once. |
| FilterGrammar.LexemeRun | src/filter.rs:21-60 | Each lexeme of the grammar takes the five-state machine from Normal to Normal and leaves its rendering: a text byte itself, CR as LF, sequences and strings nothing. |
| FilterGrammar.TailRun | src/filter.rs:21-60 | An unfinished sequence at the end yields nothing and leaves the machine out of Normal. |
| FilterGrammar.FilterRefinesGrammar | src/filter.rs:21-60 | Whatever tokenises the input, the filter's output is its rendering, and the filter ends in Normal exactly when there is no unfinished tail. |
| FilterGrammar.EveryStreamTokenises | src/filter.rs:21-60 | Every byte stream has a tokenisation into well-formed lexemes and a tail. |
| FilterGrammar.InsideALexeme | src/filter.rs:21-60 | Strictly inside a lexeme the machine is never in Normal, so no lexeme is a prefix of another. |
| FilterGrammar.TokenisationIsUnique | src/filter.rs:21-60 | The tokenisation is unique. |
| FilterGrammar.DesignationLeavesItsFinal | src/filter.rs:35-40 | After `ESC (` the next byte is text: `ESC ( B` leaves `B`. |
| FilterGrammar.EscapedBelDoesNotClose | src/filter.rs:48-57 | In a control string of any kind, `ESC BEL` leaves the string open while a lone BEL ends it. |
| FilterGrammar.ControlSequencesAreErased | src/filter.rs:41-47 | `ESC [`, any bytes outside 0x40..0x7e and one byte inside are gone and the text after them is filtered as usual; without such a byte everything is swallowed. |
| FilterGrammar.FiveBytesOpenAString | src/filter.rs:35-40 | Exactly `]`, `P`, `X`, `^` and `_` after ESC swallow the text that follows; any other byte but `[` and ESC leaves it alone. |
| FilterGrammar.ControlStringsAreErased | src/filter.rs:48-57 | A control string is gone up to its BEL or ESC backslash, and the text after it is filtered as usual. |
| Utf8.FilterPreservesUtf8 | src/filter.rs:23-58 | For valid UTF-8 input and any start state, the output is valid UTF-8 if and only if no byte from 0x80 up is consumed in state Esc. |
| Utf8.AnyReadsPreserveUtf8 | src/host.rs:623-627 | The same for the total output over any chunking of the reads. |
| Utf8.HalfACharacter | src/filter.rs:35-40 | ESC before a two-byte character turns valid UTF-8 into invalid. |
| Utf8.EncodingsAreCharacters | src/host.rs:623-627 | The definition of UTF-8 that these results use has the encoding of every Unicode scalar value. |
| Utf8.CharactersAreEncodings | src/host.rs:623-627 | And nothing else: every character it accepts is the encoding of a scalar value. |
| ShellQuoting.ShellQuote | src/client.rs:508-528 | The quoting loop computes the specification's quoted form. |
| ShellQuoting.QuotedIsRead | src/client.rs:508-528 | A shell that follows POSIX quoting reads a quoted argument, empty or with quotes in it, as one word: the argument. |
| ShellQuoting.QuotingRoundTrip | src/client.rs:495-528 | Splitting the printed command text by the POSIX rules gives back exactly the argument list, for every list. |
| ShellQuoting.CommandTextIsInjective | src/host.rs:826-863 | Distinct argument lists print distinct command texts. |
| ShellQuoting.BareArguments | src/client.rs:510-516 | An argument is printed bare exactly when it is nonempty and made of ASCII letters, digits and the ten safe marks; any other stands between single quotes. |
| ShellQuoting.ArgumentsRead | src/host.rs:826-863 | Letter by letter: a space before each argument, and a quote inside one leaves the quotes, is escaped, and enters them again. |
| Rendering.PushArguments | src/host.rs:826-829 | The loop over the arguments appends the command text. |
| Rendering.RenderEntryTo | src/client.rs:459-506 | The printer's writes add up to header, output, the missing newline if there is one missing, and an empty line. |
| Rendering.PrintBanner | src/host.rs:815-835 | The banner that is written is the one of the specification. |
| Rendering.DecimalReadsBack | src/host.rs:824-825 | The timeout is printed in decimal digits without leading zeros that read back as it. |
| Rendering.PromptReads | src/client.rs:464-492 | The plain and the coloured prompt, letter by letter, with the colour codes spelled out. |
| Rendering.EntryReads | src/client.rs:493-506 | After the prompt: the timeout and the command on one line, the output, a newline if it lacks one, an empty line. |
| Rendering.BannerReads | src/host.rs:815-830 | The banner, letter by letter. |
| Rendering.ColourIsErased | src/client.rs:459-506 | Filtering makes the coloured header, or the whole coloured rendering, equal to the plain one if and only if the plain header leaves the filter, at the end of the identity and at the end of the directory, in text or in a control string; the time, the arguments and the output do not matter. Side condition: an identity that leaves a control sequence open has no ESC in the directory after it. |
| Rendering.ClosedFieldsAreErased | src/client.rs:459-506 | In particular it is equal whenever each field's own filter run ends in Normal. |
| Rendering.ColourIsErasedToPlain | src/client.rs:459-499 | With no ESC or CR in any field, the filtered coloured header is the plain header itself. |
| Rendering.OpenFieldShowsThrough | src/client.rs:476-488 | An identity of one ESC makes the two filtered headers differ, for every directory and command. |
| Rendering.OpenSequenceCoincides | src/client.rs:476-488 | Why the side condition: with an identity `ESC [` and a directory that closes it and opens a string, the filtered headers are equal by coincidence. |
| Rendering.OpenSequenceExactly | src/client.rs:459-506 | And exactly when they are: if the directory ends inside a control string in both headers or in neither, equality depends on these two fields alone. |
| Rendering.EntryPrintsTheBanner | src/host.rs:815-835 | The plain header of a timed entry is its command's banner, byte for byte. |
| TranscriptFiles.TranscriptWriter.Append | src/transcript.rs:41-49 | An append adds the encoded entry and a newline at the end of the file and changes nothing else. |
| TranscriptFiles.ReadEntries | src/transcript.rs:52-67 | The line loop returns the parsed entries of all lines in order, skips blank and unparsable lines, and fails exactly on a line that is not UTF-8. |
| TranscriptFiles.RenderLine | src/client.rs:439-446 | A line is printed exactly when it is nonempty UTF-8 that parses. |
| TranscriptFiles.RenderUntilEof | src/client.rs:421-450 | One call advances the offset past the whole lines of the tail, renders one pass over them, and does nothing if the file has not grown. |
| TranscriptFiles.OnePassConcat | src/client.rs:433-448 | Cutting a file after a newline cuts its parse in two and its whole lines too. |
| TranscriptFiles.OnlyWholeLinesCount | src/client.rs:433-448 | A trailing partial line contributes nothing. |
| TranscriptFiles.ReadingALine | src/transcript.rs:56-65 | `read_entries` fails on a line that is not UTF-8, passes over a blank or unparsable one, takes the entry of any other, and ignores a CR before the newline. |
| TranscriptFiles.ReadingTheLastLine | src/transcript.rs:56-65 | A last line without a newline is read like one with it. |
| TranscriptFiles.RenderingALine | src/client.rs:435-447 | The follower passes over a line that is empty, not UTF-8 or unparsable once trimmed, and prints the entry of any other. |
| TranscriptFiles.FollowEqualsOnePass | src/client.rs:398-450 | For any growth of the file, cut anywhere, between any calls: the offset is 0 or just past a newline, what was rendered so far is one parse of the file up to it, and a call that saw the whole length leaves no whole line unrendered. |
| TranscriptFiles.JournalSnoc | src/transcript.rs:41-49 | The file after one more append is the file of the longer list of entries. |
| TranscriptFiles.JournalReadsBack | src/transcript.rs:41-67 | On a file built by appends of entries of text, `read_entries` and the follower both return exactly the entries appended. |
| TranscriptFiles.CutJournalYieldsPrefix | src/client.rs:421-450 | On such a file cut anywhere, also inside a line, the follower renders exactly the entries whose lines are before the cut. |
| TranscriptQueues.TranscriptQueue.Broadcast | src/host.rs:132-138 | The `retain` sends to each subscriber in turn and keeps those whose receiver lives. |
| TranscriptQueues.TranscriptQueue.Submit | src/host.rs:121-141 | The drain loop leaves the whole queue state (next, pending, subscribers, channels, journal) as the specification of a submission says. |
| TranscriptQueues.TranscriptQueue.Subscribe | src/host.rs:143-150 | A new subscriber with a fresh, empty channel; nothing else changes. |
| TranscriptQueues.TranscriptQueue.CloseSubscriptions | src/host.rs:152-154 | No subscribers are left; nothing else changes. |
| TranscriptQueues.RetainedIsPointwise | src/host.rs:132-138 | Each open subscribed channel gets the record once; every other channel is untouched; the subscribers kept are those whose channel is open. |
| TranscriptQueues.SubmitReorders | src/host.rs:121-141 | A submission in any order keeps: the journal is records 0..next-1 in order, next is the least number not submitted, what waits is everything submitted beyond it. |
| TranscriptQueues.AnyOrderReorders | src/host.rs:121-141 | That holds after submissions of distinct numbers in any order. |
| TranscriptQueues.Confluence | src/host.rs:121-141 | Two orders of the same submissions give the same journal, next and pending. |
| TranscriptQueues.ReorderedIsUnique | src/host.rs:121-141 | What has been submitted determines the journal, next and pending. |
| TranscriptQueues.PermutationIsJournalled | src/host.rs:121-141 | After any permutation of 0..n-1 all n records are journalled in order and nothing is pending. |
| TranscriptQueues.JournalReaches | src/host.rs:121-141 | The journal reaches k if and only if every number below k has been submitted. |
| TranscriptQueues.SubmitIsExact | src/host.rs:121-141 | A submission keeps every channel an unbroken stretch of the journal, up to date for subscribers, and sends nothing to anyone else. |
| TranscriptQueues.ClosedReceiversAreDropped | src/host.rs:132-138 | A subscriber whose send failed is gone after the drain. |
| TranscriptQueues.SubscribeIsExact | src/host.rs:143-150 | A subscription keeps the channels exact, touches no other, and adds exactly the new subscriber. |
| TranscriptQueues.HangUpIsExact | src/host.rs:885-902 | An attachment that drops its receiver leaves every channel exact. |
| TranscriptQueues.AttachmentHearsWhatWaited | src/host.rs:121-150 | A record submitted before an attachment but waiting behind a gap is sent to it, in order, once the gap closes. |
| PtyBuffers.PtyBuffer.Extend | src/host.rs:761-770 | The reader's critical section: pending (only with console output), total and filtered total grow by the chunk. |
| PtyBuffers.PtyBuffer.Take | src/host.rs:784-790 | The drain's critical section: it sleeps if and only if nothing is pending and end of file is not set, and otherwise takes all that is pending. |
| PtyBuffers.PtyReader | src/host.rs:753-790 | The reader's loop over chunks, interruptions and errors, with looks of the console job in between: up to the end or the first error the totals grow by the whole stream and by its filtered form, end of file is set, and what the job took and what is left to take is all of it in order. |
| Commands.WorkerKeepsOk | src/host.rs:458-655 | Every step of the connection worker, spawn failure and abandonment included, keeps the invariant of the command. |
| Commands.ReaderKeepsOk | src/host.rs:753-779 | So does every step of the PTY reader. |
| Commands.TimerKeepsOk | src/host.rs:551-565 | So does every step of the timeout thread. |
| Commands.WatcherKeepsOk | src/host.rs:702-751 | So does every step of the abort watcher. |
| Commands.JobKeepsOk | src/host.rs:661-679 | So does every step of the console job. |
| Commands.ActKeepsOk | src/host.rs:458-801 | Any interleaving of the five threads keeps the invariant: threads in their places, buffer conserved, and the answer fixed by how the command ended, a quiet end and a failed spawn included. |
| Commands.NoSignalOnceReaped | src/host.rs:591-610 | Once the child is reaped, no enabled step of any thread sends a signal. |
| Commands.ReaderIsBackBeforeTheAnswer | src/host.rs:591-639 | Before the response is written the watcher has given the socket reader back, the PTY reader is gone and the timer is quiet. |
| Hosts.StepKeepsInv | src/host.rs:57-155 | Every step of every thread, attachment and shutdown keeps the invariant of the whole host. |
| Hosts.RunKeepsInv | src/host.rs:57-801 | The invariant holds after every run, for any number of connections and commands. |
| HostTheorems.ConsoleIsSerialised | src/host.rs:661-801 | After every run the console is the complete blocks (banner, raw output, newline) of the commands that gave up their turn, in sequence order, and a prefix of at most one more; a silent host's console is empty. |
| HostTheorems.HostKeepsThePrintQueue | src/host.rs:57-68 | Each step of the host does to the ticket and its sleepers exactly what the print queue's look, release or nothing does, and in no state does anyone sleep whose turn has come. |
| HostTheorems.TurnIsExclusive | src/host.rs:57-78 | The job that holds its turn has exactly the number on the ticket, although waiting only tests `<`; so at most one does. |
| HostTheorems.SleepersHaveAReason | src/host.rs:57-67 | No lost wake-ups: in every run whoever sleeps on the ticket has a higher number, and whoever sleeps on a buffer has nothing pending and no end of file. |
| HostTheorems.PendingIsPrintedAtOnce | src/host.rs:781-801 | In every run a drain that finds output pending takes it at once, and its next step leaves on the console all the command has output by then. |
| Histories.CommandsOfAConnectionTakeTurns | src/host.rs:389-458 | In every run, when a later command of a connection has come, the earlier ones are submitted. |
| Histories.NextCommandCanCome | src/host.rs:389-458 | A connection can take its next command exactly when those before are submitted. |
| HostTheorems.OutputIsConserved | src/host.rs:488-653 | In every run: printed, in-flight and pending output add up to the raw total; the filtered total is the filter of it; a finished drain has printed all; a started command's answer comes after the reap, holds the whole filtered output and classifies the end as not found before timed out before aborted before no error with the exit status; an answer is `spawn_failed`, with 127, exactly if no child was started. |
| HostTheorems.AnswersAreUtf8 | src/host.rs:623-627 | For UTF-8 output, the text of an answer is UTF-8 (the lossy conversion is the identity) if and only if no byte from 0x80 up follows an ESC. |
| HostTheorems.NothingSignalsTheReaped | src/host.rs:551-610 | In the log of every run no signal to a process group follows the reap of its child. |
| Histories.LogIsExact | src/host.rs:551-610 | That log is exactly the run's SIGTERMs, SIGKILLs and reaps, in order. |
| HostTheorems.JournalIsExact | src/host.rs:121-141 | After every run the journal is the records of the commands below the first one not submitted, in order. |
| HostTheorems.RecordsTellTheCommand | src/host.rs:641-653 | In every run a journalled record has its command's request field by field, the answer's exit and error, the filtered output, and the raw output beside it. |
| Histories.CommandsAreTheArrivals | src/host.rs:458-459 | In every run command k is the k-th request that came, with its time and connection. |
| HostTheorems.JournalStopsAtTheAbandoned | src/host.rs:494-512 | When all workers are through, the journal ends exactly at the first abandoned command. |
| HostTheorems.AbandonedForGood | src/host.rs:494-496 | No step revives an abandoned command. |
| HostTheorems.AbandonedStallsTheJournal | src/host.rs:603-606 | In every continuation the journal never passes an abandoned command. |
| HostTheorems.JournalCanStall | src/host.rs:488-513 | It does happen: a run in which the second command completes and the journal is empty. |
| HostTheorems.ChannelsAreStretches | src/host.rs:126-150 | In every run each channel holds an unbroken stretch of the journal, and a subscriber's reaches to the end. |
| Attachments.RunIsLater | src/host.rs:121-150 | However a run goes on, the journal only grows and no channel changes where it began or whether it is raw. |
| Attachments.StaysAttached | src/host.rs:132-154 | An attachment stays subscribed until its thread returns or the host shuts down. |
| Attachments.AttachmentsSeeTheJournal | src/host.rs:885-902 | For every run, attachment step and continuation: it has been sent the commands journalled since that step, from the first on, in order, and all of them unless it hung up or the host shut down. Each entry has the request and the outcome field by field; its output is what the PTY gave if the attachment asked for that, and the client's output if not. |
| Attachments.NothingIsSentAfterwards | src/host.rs:132-154 | After a shutdown, or after an attachment has hung up, no continuation sends anything more to those attached before, or to it. |
| Attachments.WaitingIsBehindAGap | src/host.rs:121-141 | In every run a submitted record waits exactly if some earlier command has not been submitted. |
| Attachments.CompletedBeforeIsSentIfItWaited | src/host.rs:121-150 | An entry completed before an attachment is sent to it if and only if it then waited behind an incomplete earlier command and, for one still attached, has been journalled since. |
| HostTheorems.UnsubscribedHearNothing | src/host.rs:132-154 | After a failed send or `close_subscriptions` no step sends the attachment anything or subscribes it again. |
| HostTheorems.ConsoleStepsOnlyHelp | src/host.rs:661-801 | Once every job is queued and every PTY at its end, no step of any thread but a new command's arrival undoes that or increases the measure, and each step of the front job decreases it. |
| HostTheorems.AnyScheduleDrains | src/host.rs:681-801 | So under every schedule of all threads the front job takes at most the measure's many steps, and until the ticket is at the end it can always take one. |
| HostTheorems.AllThroughIsSettled | src/host.rs:578-606 | When every worker is done or has given up, every job is queued and every PTY at its end. |
| HostTheorems.FrontIsNeverStuck | src/host.rs:57-67 | There the front job always has a step it can take. |
| HostTheorems.ConsoleDrains | src/host.rs:781-801 | There the console drains: within the measure's many steps the ticket reaches the number of commands, and the console is the complete blocks of all of them in order. |
| HostTheorems.AbandonedCommandsArePrinted | src/host.rs:479-496 | The print queue has no gap: from every run whose workers are all through, abandoned or not, the host can go on until its console is all the complete blocks. |
| Outcomes.NotFoundIsAFailedStart | src/host.rs:610-614 | In every run a started command is answered `not_found`, with exit 127, if and only if one of the child's calls failed, whichever it was, all four bytes of its errno got through and no read of them failed, as the steps that forked it and read its errno say. |
| Outcomes.FailedChdirIsNotFound | src/pty_exec.rs:135-139 | For every request that can be started there is a run in which its `chdir` fails and it is answered `not_found`. |
| Histories.RunKeepsHistory | src/host.rs:458-655 | In every run each command's timer, watcher, child, errno and message are what its steps so far say; a timer never expires once the worker has cancelled it. |
| Outcomes.TimedOutMeansExpiredFirst | src/host.rs:594-616 | In every run a started command is answered `timeout`, with exit 124, if and only if no errno came through and its timer expired before the worker cancelled it. |
| Outcomes.AbortedMeansHeard | src/host.rs:603-621 | In every run a started command is answered `aborted`, with the reaped exit status, if and only if no errno came through, its timer did not fire first, and its watcher read an abort line or lost the client. |
| Outcomes.KilledWhenItSaysSo | src/host.rs:747-751 | In every run a command answered `timeout` or `aborted` has had its process group sent SIGTERM and then SIGKILL, after its timer expired or the abort was heard. |
| Outcomes.AnyOutputCanBeAnswered | src/host.rs:578-653 | For every request that can be started, every output and every exit status there is a run in which it is answered with the filtered output, that status and no error. |
| Outcomes.TimeoutHappens | src/host.rs:551-565 | For every request with a timeout there is a run in which it is answered `timeout`. |
| Outcomes.AbortHappens | src/host.rs:723-727 | For every request without one there is a run in which an abort line is heard and it is answered `aborted`. |
| Outcomes.NoErrorMeansNothingAmiss | src/host.rs:610-621 | In every run a started command is answered without an error, with the reaped exit status, if and only if none of these happened. |
| Outcomes.SpawnFailedMeansRefused | src/host.rs:476-496 | In every run a command is answered `spawn_failed` if and only if `spawn` failed and no child was forked, with exit 127 and the message of that failure. |
| Outcomes.TimeoutIsCancelledBeforeTheReap | src/host.rs:591-610 | For every request with a timeout there is a run in which the timer is cancelled, the child is reaped later, and the answer carries no error. |
| Outcomes.DrainAppends | src/host.rs:126-139 | Each record drained is one append to the journal file. |
| Outcomes.RecordsAreText | src/host.rs:623-653 | In every run the record of an answered command is text if its request is and its output has no byte from 0x80 up after an ESC. |
| Outcomes.JournalFileReadsBack | src/transcript.rs:41-67 | In every run whose records are text, the journal file reads back, by either reader, as exactly the entries of the commands below the first one not submitted, in order; cut anywhere it gives the follower a prefix of them. |
| Completion.HelpfulHelps | src/host.rs:578-639 | Until a command is answered some thread other than its console job has a step that brings it nearer. |
| Completion.AnswerNeedsNoConsole | src/host.rs:578-653 | From every reachable state of a command its threads bring it to its end without a step of its console job or of any other command: reaped and answered with the whole filtered output, or answered with its spawn failure, unless its watcher has panicked or its worker has given up, and then without an answer. |
| Completion.ThreadsRefineTheSession | src/host.rs:567-653 | Each step of a command's threads is a step of the session automaton, with the same line heard, the same reply written and the same phase after it, or leaves the session alone. |
| Completion.RunsRefineTheSession | src/host.rs:458-653 | So every run of a command's threads is a run of the session, with exactly the lines they read and the responses they wrote. |
| Completion.AtMostOneResponse | src/host.rs:488-496 | In any such run the session replies once if the worker has written its answer, with that command's tag, and otherwise not at all. |
| Completion.RespondingIsFinal | src/host.rs:634-639 | A response goes out only when the answer has been made, and after it the worker writes no other. |
| Completion.SubmitRefinesTheSession | src/host.rs:641-654 | `submit` is the session's return to the top of its loop. |
| Sessions.HostStepKeepsAuthorised | src/host.rs:375-456 | Every step of a connection keeps: each processed request line has a ping answered by the worker loop since the previous one. |
| Sessions.RequestsAreAuthorised | src/host.rs:375-456 | So over every trace, whatever the client sends; processed request lines never exceed those pings, and neither the opening ping nor one the watcher reads authorises anything. |
| Sessions.AbortWatcher | src/host.rs:702-745 | The watcher's loop over lines, timeouts, end of file and errors: it reports an abort exactly when an abort line or the loss of the client is among them, reads nothing past it, and records only overheard lines. |
| Sessions.ServeTurn | src/host.rs:389-456 | One turn of the worker's loop over a line is the automaton's run over it. |
| Sessions.HandleConnection | src/host.rs:353-456 | The whole loop is the automaton's run over all the lines, its trace is authorised, and a client that keeps to the protocol is served to the end. |
| Sessions.PoliteClientIsServed | src/host.rs:389-456 | If all writes succeed and each request has a ping since the one before it, the worker ends at the top of its loop, having answered every ping and processed every request, in order. |
| Service.ConnectionsEndForAReason | src/host.rs:375-456 | Over every trace a connection has ended if and only if its worker vanished, the first line was no ping, a write that ends it failed, or a request came with no ping answered since the previous one. |
| Service.TracesAreTold | src/host.rs:375-456 | Over every trace the phase of the session is what the trace alone says. |
| Service.RepliesAreExact | src/host.rs:375-653 | Over every trace exactly these are written: a pong for each ping the worker takes, and for each request it processes one response, with that request's tag. |
| Sessions.TurnKeepsAuthorised | src/host.rs:389-456 | A turn, a command's run included, keeps the trace authorised. |
| Wires.ClientKeepsFramed | src/client.rs:49-90 | Every client step, failed and given-up ones included, keeps the framing invariant of both channels and both ends. |
| Wires.HostKeepsFramed | src/host.rs:389-456 | Every host step keeps it. |
| Wires.TalkIsFramed | src/client.rs:29-113 | It holds after every run of the two parties, with or without abort lines. |
| Wires.AnswersMatch | src/client.rs:296-311 | Each pong or response the client accepts was written for the message it takes it to answer, and answers come in order. |
| Wires.WatcherReadsOnlyAborts | src/host.rs:702-745 | While a command runs, nothing but an abort line can be there for the watcher to read; the next exchange is left to the worker. |
| Wires.ReadyMeansInStep | src/host.rs:567-608 | When the client has its answer, nothing but aborts is under way and the worker is at its loop top, on the way there, or gone. |
| Wires.PingedRequestsAreTaken | src/host.rs:424-428 | A request sent right after a pre-command pong finds `command_pinged` set. |
| Wires.OpeningSucceeds | src/client.rs:39-90 | When nothing fails the opening handshake succeeds. |
| Wires.ExchangeSucceeds | src/client.rs:49-90 | Whenever both ends are at rest there is a run in which a ping and a request of any kind get each its own answer, and both are at rest again. |
| Wires.AbortIsHeard | src/host.rs:723-727 | An abort line sent while the command runs reaches the watcher, and the request is still answered. |
| Pools.ConnectionState.Acquire | src/mcp.rs:260-273 | The pop loop drops dead connections from the end, leases the first live one and counts it, or empties the pool. |
| Pools.ConnectionState.DropDead | src/mcp.rs:230-239 | The `retain` keeps the live connections in order; a connect is due exactly when none is left and none is leased. |
| Pools.ConnectionState.Return | src/mcp.rs:185-193 | A dropped lease is uncounted and goes back to the pool exactly when it is reusable. |
| Pools.StepKeepsInv | src/mcp.rs:156-332 | Every step of every call, of the reconnect worker and of every host keeps the invariant of the pool, its wires and its accounting. |
| PoolService.DropDecides | src/mcp.rs:185-193 | A dropped lease's connection goes back to the pool untouched if its client has its last answer, and is closed otherwise; the call is over, or looks again when it retries. |
| PoolService.LookLeasesTheLastLive | src/mcp.rs:260-273 | A look leases the last idle connection not found dead, and closes exactly the dead ones after it. |
| PoolService.LookFindsNone | src/mcp.rs:264-288 | With none alive the pool is emptied and the call goes on to connect. |
| PoolService.ScoutLooks | src/mcp.rs:229-239 | The reconnect worker throws out exactly the dead, and connects next exactly when that leaves the pool empty and nothing is leased. |
| PoolService.ScoutFinishes | src/mcp.rs:241-255 | The connection it makes is pooled; one it fails to make is closed. |
| Pools.AliveKeepsOrder | src/mcp.rs:230-233 | The connections kept stay in order. |
| PoolService.CallsLookAgain | src/mcp.rs:297-331 | A call that could not connect, or whose ping failed, looks again and has sent nothing; one whose time is up is over. |
| PoolService.Beginnings | src/mcp.rs:241-273 | A new call looks for a connection first; the reconnect worker opens one of its own, or rests when it cannot. |
| PoolService.ClosedForAReason | src/mcp.rs:156-193 | In every run a connection is given up only if one of its operations failed or was cut short, or a look found it dead and its host was gone. |
| PoolRuns.EveryCallCanBeServed | src/mcp.rs:346-381 | From every state any call that looks for a connection can be served: there is a run on in which it leases or makes one, sends its one request, accepts its response, and leaves the connection in the pool. |
| PoolTheorems.RunKeepsInv | src/mcp.rs:156-381 | The invariant holds after every run: any number of calls, timeouts, disconnects and retries. |
| PoolTheorems.PooledConnectionsAreInStep | src/mcp.rs:156-193 | An idle connection, or one its lease would return, has both channels empty and its host worker at the loop top, on the way there, or gone. |
| PoolTheorems.NoAnswerIsMistaken | src/mcp.rs:156-182 | On every connection ever made, no pong or response was taken for the answer to another message. |
| PoolTheorems.ActiveCountsLeases | src/mcp.rs:185-193 | `active` is the number of live leases, so the decrement never underflows. |
| PoolTheorems.EveryConnectionIsHeldOnce | src/mcp.rs:222-309 | A connection is open exactly if it is in the idle list, one call's lease or connect, or the worker's connect, and it is in only one of these, once. |
| PoolTheorems.NothingIsReplayed | src/mcp.rs:346-381 | A tool call sends at most one request, and after it never looks for a connection again. |
| PoolTheorems.RequestsGoWhereTheyAreTaken | src/mcp.rs:311-332 | A request goes out only on a connection in step whose host worker has `command_pinged` set or is gone, and a retry only before any request. |
| PtyExec.LittleEndianRoundTrip | src/pty_exec.rs:182-232 | Every 32-bit errno, negative ones included, survives the byte encoding, which is least significant byte first. |
| PtyExec.ThroughIsWhatMoves | src/pty_exec.rs:182-204 | What gets into the pipe is as much as the writes move before one fails or moves nothing; interruptions cost nothing. |
| PtyExec.FailsReadingExactly | src/pty_exec.rs:215-224 | Reading reports an error exactly if a read fails before there are four bytes or a read has come to the end of the pipe. |
| PtyExec.WriteErrno | src/pty_exec.rs:182-204 | Under short, interrupted and failing writes the pipe holds exactly the bytes that got through, a prefix of the encoding. |
| PtyExec.ReadErrno | src/pty_exec.rs:206-232 | Under a failing `dup`, short, interrupted and failing reads: an error exactly if a read fails before four bytes or a read at the end of the pipe; otherwise the four bytes' value if there are four, and nothing if there are fewer. |
| PtyExec.ErrnoSurvivesThePipe | src/pty_exec.rs:182-232 | Together: the parent learns the child's errno if and only if all four bytes got through, and never a wrong one. |
| PtyExec.CheckEnv | src/pty_exec.rs:78-88 | The overrides are accepted exactly when no name has `=` or NUL and no value NUL. |
| PtyExec.CheckEnvIsTheFirst | src/pty_exec.rs:78-88 | Otherwise the first offending override decides the error, its `=` before its NUL and its name before its value. |
| PtyExec.Refusal | src/pty_exec.rs:66-90 | `spawn` goes on to the fork exactly when there is an argument, no field has a NUL and the overrides are accepted. |
| PtyExec.RefusalOrder | src/pty_exec.rs:66-90 | Which error it is: the first that applies, in the source's order. |
| PtyExec.CallsInOrder | src/pty_exec.rs:130-158 | The child's calls in order: standard input, directory, the environment, cleared first if it is, each override, the identity, the program. |
| PtyExec.EnterProgram | src/pty_exec.rs:145-161 | The loop over the overrides, the identity and `execvp`, any of which may fail: the child ends as the list of calls says and the pipe holds what its report got through. |
| PtyExec.ChildMain | src/pty_exec.rs:125-163 | The same for the whole child, `dup2`, `chdir` and `clearenv` included. |
| PtyExec.FailedMeansACallFails | src/pty_exec.rs:125-163 | The child ends with errno e exactly when some call fails with e and all before it work. |
| PtyExec.HostLearnsTheFailure | src/host.rs:611-614 | The host learns errno e if and only if a call failed with e, all four bytes got through and no read failed. |
| PtyExec.ExecutedEnvironment | src/pty_exec.rs:140-158 | The program runs exactly when all calls work and no name is empty, and then in the environment the overrides describe. |
| PtyExec.CollectEnvs | src/client.rs:165-168 | The client's loop collects the options in a map, the last of each name. |
| PtyExec.OverlayIsInserted | src/pty_exec.rs:145-151 | Setting a list of variables overlays the map collected from it, and fails exactly if that has an empty name. |
| PtyExec.CollectedOptionsOverlay | src/host.rs:461-465 | From command line to child: collecting the options in the request's map and setting its bindings in any order gives the environment that setting the options one by one would. |
| PtyExec.OverlayIsLastWins | src/pty_exec.rs:145-151 | The last override of a name wins, what is not overridden stays, nothing else appears; it fails exactly on an empty name. |
| PtyExec.ChildSeesItsIdentity | src/pty_exec.rs:140-157 | `REXEC_WHOAMI` is the request's identity whatever was inherited or overridden; every other variable is its last override, or inherited unless cleared. |

## Left out

- Sockets, `poll`, PTYs, `fork`, `exec`, termios, signal delivery and clocks are nondeterministic steps: a read returns a line, times out or fails; a timer may fire at any time; a write may fail. No wall-clock bound is claimed, for `acquire` or for anything else.
- Sockets carry whole lines. A line that is partly read when a read times out (src/host.rs:712) is not modelled.
- JSON, timestamps and the trimming of Unicode text are functions the model does not look into; what `TranscriptFiles.JournalReadsBack` needs of them, for entries of text, is `Codec.Faithful`.
- The lossy UTF-8 conversion of outputs that are not UTF-8: outputs stay bytes, and the theorems say when the conversion is the identity.
- Errors of the journal file inside `submit` and of standard output in a console job are ignored by the source; the model takes these writes to succeed.
- Mutex poisoning, thread-spawn failure, allocation failure and 64-bit overflow of the counters. A panic of the abort watcher is a step, because the worker handles it.
- The loops of `wait_turn`, `drain_to_stdout`, `acquire` and the reconnect worker run against other threads; they are paths through the step systems; their critical sections are methods.
- Completion.RunsRefineTheSession: a reply is known by its tag; that the text of the message is the encoded `Response` of the command is serialisation, which is not modelled on the wire.
- Wires.TalkIsFramed: the client that attaches is not a party on the wire; what attachments are sent is in `Attachments.AttachmentsSeeTheJournal`, up to the channel, not the socket writes behind it.
- HostTheorems.AnyScheduleDrains: bounds the front job's steps and shows that it can always take one; that a scheduler lets it is not stated.
- Completion.AnswerNeedsNoConsole: says that the threads can always finish, not that a child ends its output; end of file on the PTY is one of the steps.
- Rendering.ColourIsErased: an identity that leaves a control sequence open before a directory with an ESC is `Rendering.OpenSequenceExactly`'s, where equality is a coincidence of the bytes of the two fields; if moreover the directory ends inside a control string in just one of the two headers, what follows them may matter too, and that case is not characterised.
- Feeding the child's standard input. The child's file descriptors and working directory: its calls work or fail, and only the environment is followed.
- PtyExec.CollectedOptionsOverlay: holds for the bindings in any order, the order of the names that the source's map has being one.
- Command-line parsing, mode dispatch, exit-code masking, the MCP schema and the async runtime.
- Short self-contained helpers whose properties are immediate: `augmented_path`, `list_recent`, `service.rs`, `bind_with_stale_takeover`, the `attempts` counter.
