/** What holds in every run of the host, for any number of connections and commands. */
module HostTheorems {
  import opened Bytes
  import opened OutputFilters
  import opened Protocol
  import opened PtyBuffers
  import opened Rendering
  import opened TranscriptQueues
  import opened Commands
  import opened Hosts
  import Utf8

  // ---------- the console ----------

  /** The block of a command: its banner, its raw output, an empty line. */
  function Block(c: Command): bytes {
    Banner(c.request, c.time) + c.pty.rawTotal + [LF]
  }

  function Blocks(commands: seq<Command>): seq<bytes> {
    seq(|commands|, i requires 0 <= i < |commands| => Block(commands[i]))
  }

  /** Complete blocks of the first n commands in order, then a prefix of the next one. */
  ghost predicate Serialised(console: bytes, commands: seq<Command>, n: nat) {
    && n <= |commands|
    && (forall i :: 0 <= i < n ==> commands[i].job == Released && (commands[i].spawned ==> commands[i].pty.eof))
    && exists part: bytes ::
         && console == Concat(Blocks(commands[..n])) + part
         && (if n == |commands| then part == [] else part <= Block(commands[n]))
  }

  lemma PrefixOfBlock(banner: bytes, printed: bytes, rest: bytes)
    ensures banner + printed + [] <= banner + (printed + rest) + [LF]
  {
    assert banner + (printed + rest) + [LF] == (banner + printed + []) + (rest + [LF]);
  }

  /** What a command has shown is a prefix of its block, all of it once it has released its turn. */
  lemma ShownIsAPrefix(c: Command)
    requires BufferOk(false, c)
    ensures Shown(false, c) <= Block(c)
    ensures ClosedBlock(c.job) ==> Shown(false, c) == Block(c)
  {
    hide Banner;
    if c.job.Writing? {
      Assoc(c.printed, c.job.chunk, c.pty.rawPending);
      PrefixOfBlock(Banner(c.request, c.time), c.printed, c.job.chunk + c.pty.rawPending);
    } else if ClosedBlock(c.job) {
      assert c.printed + [] == c.printed;
    } else {
      PrefixOfBlock(Banner(c.request, c.time), c.printed, c.pty.rawPending);
    }
  }

  lemma PartOfTurn(next: nat, i: nat, c: Command)
    requires Ok(false, c) && InTurn(next, i, c.job)
    ensures i < next ==> Shown(false, c) == Block(c) && c.job == Released && (c.spawned ==> c.pty.eof)
    ensures i == next ==> Shown(false, c) <= Block(c)
    ensures i > next ==> Shown(false, c) == []
  {
    hide Block, Shown, ThreadsOk, AnswerOk;
    ShownIsAPrefix(c);
    if i > next {
      WaitingShowsNothing(false, c);
    }
  }

  /** A list of parts of which the first n are whole and all after the next are empty. */
  lemma WholeThenPart(parts: seq<bytes>, n: nat)
    requires n <= |parts| && forall i :: n < i < |parts| ==> parts[i] == []
    ensures Concat(parts) == Concat(parts[..n]) + if n < |parts| then parts[n] else []
  {
    hide Concat;
    ConcatSplit(parts, n);
    ConcatOne(parts[n..]);
  }

  lemma SerialisedConsole(h: Host)
    requires CommandsOk(h) && TurnsOk(h) && ConsoleOk(h) && !h.silent
    ensures Serialised(h.console, h.commands, h.printNext)
  {
    hide Shown, Block, Ok, InTurn;
    var n := h.printNext;
    var parts := Parts(false, h.commands);
    forall i | 0 <= i < |h.commands|
      ensures i < n ==> parts[i] == Block(h.commands[i]) && h.commands[i].job == Released
                        && (h.commands[i].spawned ==> h.commands[i].pty.eof)
      ensures i == n ==> parts[i] <= Block(h.commands[i])
      ensures i > n ==> parts[i] == []
    {
      PartOfTurn(n, i, h.commands[i]);
    }
    WholeThenPart(parts, n);
    assert parts[..n] == Blocks(h.commands[..n]);
  }

  /** Console serialisation: after every run the console of a host is the complete blocks of
      the commands that released their turn, in sequence-number order, and a prefix of at
      most one more; that of a silent host is empty. */
  lemma ConsoleIsSerialised(silent: bool, steps: seq<Step>)
    ensures match Run(silent, steps)
            case None => true
            case Some(h) => if silent then h.console == [] else Serialised(h.console, h.commands, h.printNext)
  {
    RunKeepsInv(silent, steps);
    var r := Run(silent, steps);
    if r.Some? {
      if silent {
        SilentConsole(r.value);
      } else {
        SerialisedConsole(r.value);
      }
    }
  }

  lemma SilentConsole(h: Host)
    requires h.silent && ConsoleOk(h)
    ensures h.console == []
  {
    ConcatNothing(Parts(true, h.commands));
  }

  /** Although a job only waits while the ticket is below its number, the one that holds its
      turn has exactly the number on the ticket; so there is at most one. */
  lemma TurnIsExclusive(silent: bool, steps: seq<Step>, i: nat)
    ensures var r := Run(silent, steps);
            r.Some? && i < |r.value.commands| && !Waiting(r.value.commands[i].job) && r.value.commands[i].job != Released
            ==> i == r.value.printNext
  {
    hide Ok, ConsoleOk, JournalOk, LogOk, Run;
    RunKeepsInv(silent, steps);
    var r := Run(silent, steps);
    if r.Some? && i < |r.value.commands| {
      assert InTurn(r.value.printNext, i, r.value.commands[i].job);
    }
  }

  // ---------- wake-ups ----------

  /** No lost wake-ups: whoever sleeps has a reason to, on the ticket and on the buffer. */
  lemma SleepersHaveAReason(silent: bool, steps: seq<Step>, i: nat)
    ensures var r := Run(silent, steps);
            r.Some? && i < |r.value.commands| ==>
              var c := r.value.commands[i];
              && (c.job == TurnAsleep ==> r.value.printNext < i)
              && (c.job == DrainAsleep ==> c.pty.rawPending == [] && !c.pty.eof)
  {
    hide ThreadsOk, AnswerOk, ConsoleOk, JournalOk, LogOk, Run;
    RunKeepsInv(silent, steps);
    var r := Run(silent, steps);
    if r.Some? && i < |r.value.commands| {
      assert InTurn(r.value.printNext, i, r.value.commands[i].job);
      assert Ok(silent, r.value.commands[i]);
    }
  }

  /** Promptness: a drain that finds output pending takes it at once, end of file or not, and
      its next step puts on the console all the command has output so far. */
  lemma PendingIsPrintedAtOnce(silent: bool, steps: seq<Step>, i: nat)
    ensures var r := Run(silent, steps);
            r.Some? && i < |r.value.commands| && r.value.commands[i].job == Draining && r.value.commands[i].pty.rawPending != [] ==>
              var g := Run(silent, steps + [Do(i, ByJob(LookAtBuffer))] + [Do(i, ByJob(WriteChunk))]);
              && g.Some? && i < |g.value.commands|
              && g.value.commands[i].printed == r.value.commands[i].pty.rawTotal
              && g.value.console == r.value.console + r.value.commands[i].pty.rawPending
  {
    hide Run, Inv, Apply, StepEnabled;
    RunKeepsInv(silent, steps);
    var r := Run(silent, steps);
    if r.Some? && i < |r.value.commands| && r.value.commands[i].job == Draining && r.value.commands[i].pty.rawPending != [] {
      var h := r.value;
      InvIsLinked(h);
      InvIsOk(h);
      DrainingHasPrinted(h.silent, h.commands[i]);
      LookThenWrite(h, i);
      OneMoreStep(silent, steps, Do(i, ByJob(LookAtBuffer)));
      OneMoreStep(silent, steps + [Do(i, ByJob(LookAtBuffer))], Do(i, ByJob(WriteChunk)));
    }
  }

  lemma DrainingHasPrinted(silent: bool, c: Command)
    requires Ok(silent, c) && c.job == Draining
    ensures c.printed + c.pty.rawPending == c.pty.rawTotal
  {
    hide ThreadsOk, AnswerOk, Filtered, EndState;
  }

  lemma LookThenWrite(h: Host, i: nat)
    requires Linked(h.transcript) && i < |h.commands| && h.commands[i].job == Draining && h.commands[i].pty.rawPending != []
    ensures var look, write := Do(i, ByJob(LookAtBuffer)), Do(i, ByJob(WriteChunk));
            && StepEnabled(h, look) && Linked(Apply(h, look).transcript) && StepEnabled(Apply(h, look), write)
            && var g := Apply(Apply(h, look), write);
               && i < |g.commands|
               && g.commands[i].printed == h.commands[i].printed + h.commands[i].pty.rawPending
               && g.console == h.console + h.commands[i].pty.rawPending
  {
    assert h.console + [] == h.console;
  }

  /** The ticket as the print queue sees it. */
  function TicketOf(h: Host): Ticket {
    Ticket(h.printNext, set i: nat | i < |h.commands| && h.commands[i].job == TurnAsleep)
  }

  /** What a step does to the print queue: a look, a release, a wake-up nobody asked for, or nothing. */
  function TicketAfter(t: Ticket, s: Step): Ticket {
    match s
    case LookAtQueue(i) => Looked(t, i)
    case Release(_) => Advanced(t)
    case Do(i, ByJob(Wake)) => t.(asleep := t.asleep - {i})
    case _ => t
  }

  lemma JobAndTheTicket(c: Command, a: JobAction)
    requires JobEnabled(c, a)
    ensures JobStep(c, a).job != TurnAsleep
    ensures a == Wake <==> c.job == TurnAsleep
    ensures a == Wake ==> JobStep(c, a).job == AtQueue
  {
  }

  /** Only the spurious wake-up of a job takes it out of its sleep. */
  lemma ActAndTheTicket(c: Command, a: Action)
    requires ThreadsOk(c) && Enabled(c, a)
    ensures a == ByJob(Wake) ==> c.job == TurnAsleep && Act(c, a).job == AtQueue
    ensures a != ByJob(Wake) ==> (Act(c, a).job == TurnAsleep <==> c.job == TurnAsleep)
  {
    hide ThreadsOk, JobStep, JobEnabled, WorkerStep, WorkerEnabled, ReaderStep, TimerStep, WatcherStep;
    if a.ByJob? {
      JobAndTheTicket(c, a.job);
    } else {
      OthersShowNothing(c, a);
    }
  }

  lemma DoAndTheTicket(h: Host, i: nat, a: Action)
    requires Inv(h) && StepEnabled(h, Do(i, a))
    ensures var j := Act(h.commands[i], a).job;
            && (a == ByJob(Wake) ==> h.commands[i].job == TurnAsleep && j == AtQueue)
            && (a != ByJob(Wake) ==> (j == TurnAsleep <==> h.commands[i].job == TurnAsleep))
  {
    hide Ok, Act, Enabled, TurnsOk, ConsoleOk, JournalOk, LogOk;
    assert Ok(h.silent, h.commands[i]);
    OkIsThreadsOk(h.silent, h.commands[i]);
    ActAndTheTicket(h.commands[i], a);
  }

  lemma OkIsThreadsOk(silent: bool, c: Command)
    requires Ok(silent, c)
    ensures ThreadsOk(c)
  {
  }

  /** The host's ticket and its sleepers are a `PrintQueue`: each step does to them exactly what
      the queue's methods do, and keeps everyone from oversleeping. */
  lemma HostKeepsThePrintQueue(h: Host, s: Step)
    requires Inv(h) && StepEnabled(h, s)
    ensures TicketOf(Apply(h, s)) == TicketAfter(TicketOf(h), s)
    ensures NobodyOversleeps(TicketOf(h)) && NobodyOversleeps(TicketOf(Apply(h, s)))
  {
    InvMeansAwake(h);
    StepKeepsInv(h, s);
    InvMeansAwake(Apply(h, s));
    match s {
      case Do(i, a) => DoAndTheTicket(h, i, a); DoOnTheTicket(h, i, a);
      case LookAtQueue(i) => LookOnTheTicket(h, i);
      case Release(i) => ReleaseOnTheTicket(h, i);
      case Arrive(c, r, t) => ArriveOnTheTicket(h, c, r, t);
      case Submit(i) => SubmitOnTheTicket(h, i);
      case _ => QuietOnTheTicket(h, s);
    }
  }

  lemma InvMeansAwake(h: Host)
    requires Inv(h)
    ensures NobodyOversleeps(TicketOf(h)) && Linked(h.transcript)
  {
    hide CommandsOk, ConsoleOk, LogOk, Reordered;
    forall i | i in TicketOf(h).asleep ensures MustWait(h.printNext, i) {
      assert InTurn(h.printNext, i, h.commands[i].job);
    }
  }

  lemma DoOnTheTicket(h: Host, i: nat, a: Action)
    requires Linked(h.transcript) && StepEnabled(h, Do(i, a))
    requires var j := Act(h.commands[i], a).job;
             && (a == ByJob(Wake) ==> h.commands[i].job == TurnAsleep && j == AtQueue)
             && (a != ByJob(Wake) ==> (j == TurnAsleep <==> h.commands[i].job == TurnAsleep))
    ensures TicketOf(Apply(h, Do(i, a))) == TicketAfter(TicketOf(h), Do(i, a))
  {
    hide Act, Enabled, Shows, Logged, Linked;
  }

  lemma LookOnTheTicket(h: Host, i: nat)
    requires Linked(h.transcript) && StepEnabled(h, LookAtQueue(i))
    ensures TicketOf(Apply(h, LookAtQueue(i))) == Looked(TicketOf(h), i)
  {
    hide Linked;
  }

  lemma ReleaseOnTheTicket(h: Host, i: nat)
    requires Linked(h.transcript) && StepEnabled(h, Release(i))
    ensures TicketOf(Apply(h, Release(i))) == Advanced(TicketOf(h))
  {
    hide Linked;
  }

  lemma ArriveOnTheTicket(h: Host, connection: nat, request: Request, time: bytes)
    requires Linked(h.transcript) && StepEnabled(h, Arrive(connection, request, time))
    ensures TicketOf(Apply(h, Arrive(connection, request, time))) == TicketOf(h)
  {
    hide Linked, Idle;
  }

  lemma SubmitOnTheTicket(h: Host, i: nat)
    requires Linked(h.transcript) && StepEnabled(h, Submit(i))
    ensures TicketOf(Apply(h, Submit(i))) == TicketOf(h)
  {
    hide Linked, RecordOf, Submitted;
  }

  lemma QuietOnTheTicket(h: Host, s: Step)
    requires Linked(h.transcript) && StepEnabled(h, s) && (s.Attach? || s.HangUp? || s.CloseSubscriptions?)
    ensures TicketOf(Apply(h, s)) == TicketOf(h)
  {
    hide Linked;
  }

  // ---------- one command ----------

  ghost predicate CommandFacts(silent: bool, c: Command) {
    // the client's text is the filtered stream, the console's the raw one
    && c.pty.filteredTotal == Filtered(c.pty.rawTotal)
    && (!silent && c.job.Writing? ==> c.printed + c.job.chunk + c.pty.rawPending == c.pty.rawTotal)
    && (!silent && !c.job.Writing? ==> c.printed + c.pty.rawPending == c.pty.rawTotal)
    // when the drain has returned, everything has been printed
    && (!silent && AfterDrain(c.job) ==> c.printed == c.pty.rawTotal && (c.spawned ==> c.pty.eof))
    // an answered command has been reaped, its threads are gone, and the answer is its whole
    // output and says how it ended: not found before timed out before aborted before nothing amiss
    && (c.spawned && c.response.Some? ==>
          && c.reaped && Quiet(c.timer) && c.watcher.Returned? && c.reader == ReaderGone
          && c.response.value.output == Filtered(c.pty.rawTotal)
          && c.errno == ErrnoFound(c.request, c.start)
          && Truthful(c, c.response.value))
    // a failed spawn is answered as one, and nothing else is
    && (c.response.Some? ==> (c.response.value.error == Some(SpawnFailed) <==> !c.spawned))
    && (c.response.Some? && !c.spawned ==> c.response.value.exit == 127)
  }

  lemma OkGivesFacts(silent: bool, c: Command)
    requires Ok(silent, c)
    ensures CommandFacts(silent, c)
  {
    assert c.printed + [] == c.printed;
  }

  /** Nothing of a command's output is lost, repeated or reordered on its way to the console,
      the client and the journal, and no answer overtakes the command's own threads. */
  lemma OutputIsConserved(silent: bool, steps: seq<Step>, i: nat)
    ensures var r := Run(silent, steps);
            r.Some? && i < |r.value.commands| ==> CommandFacts(silent, r.value.commands[i])
  {
    hide ThreadsOk, BufferOk, AnswerOk, CommandFacts, Run;
    RunKeepsInv(silent, steps);
    var r := Run(silent, steps);
    if r.Some? && i < |r.value.commands| {
      OkGivesFacts(silent, r.value.commands[i]);
    }
  }

  /** For output that is UTF-8, the text of an answer is UTF-8 (so that converting it loses
      nothing) exactly when no byte from 0x80 up follows an ESC. */
  lemma AnswersAreUtf8(silent: bool, steps: seq<Step>, i: nat)
    ensures var r := Run(silent, steps);
            r.Some? && i < |r.value.commands| ==>
              var c := r.value.commands[i];
              c.spawned && c.response.Some? && Utf8.Valid(c.pty.rawTotal) ==>
                (Utf8.Valid(c.response.value.output) <==> Utf8.NoHighByteInEsc(Normal, c.pty.rawTotal))
  {
    hide Run, Utf8.Valid, Utf8.NoHighByteInEsc;
    OutputIsConserved(silent, steps, i);
    var r := Run(silent, steps);
    if r.Some? && i < |r.value.commands| && Utf8.Valid(r.value.commands[i].pty.rawTotal) {
      Utf8.FilterPreservesUtf8(Normal, r.value.commands[i].pty.rawTotal);
    }
  }

  /** No signal after reap: in the order things happened, nothing is sent to a process group
      after its child was reaped. */
  lemma NothingSignalsTheReaped(silent: bool, steps: seq<Step>, j: nat, k: nat)
    ensures var r := Run(silent, steps);
            r.Some? && j < k < |r.value.log| && r.value.log[j].Reaped? ==>
              r.value.log[k] != Signalled(r.value.log[j].number)
  {
    hide CommandsOk, TurnsOk, ConsoleOk, JournalOk, Run;
    RunKeepsInv(silent, steps);
  }

  // ---------- the journal ----------

  predicate Journalable(c: Command) {
    c.worker == Done
  }

  /** The journal holds the records of commands 0..n-1 in order, and n is the first that has
      not been submitted. */
  ghost predicate JournalIsPrefix(h: Host) {
    var n := |h.transcript.drained|;
    && n <= |h.commands|
    && (forall i :: 0 <= i < n ==> Journalable(h.commands[i]) && h.commands[i].response.Some?
                                   && h.transcript.drained[i] == RecordOf(h.commands[i]))
    && (n < |h.commands| ==> !Journalable(h.commands[n]))
  }

  lemma InvGivesJournal(h: Host)
    requires CommandsOk(h) && JournalOk(h)
    ensures JournalIsPrefix(h)
  {
    hide RecordOf, ThreadsOk, BufferOk, ExactStreams;
    var q, m := h.transcript, Journalled(h.commands);
    var n := q.next;
    forall i: nat | i < n
      ensures i < |h.commands| && h.commands[i].worker == Done && h.commands[i].response.Some?
      ensures q.drained[i] == RecordOf(h.commands[i])
    {
      assert i in m && q.drained[i] == m[i];
    }
    if n > 0 {
      assert n - 1 in m;
    }
    if n < |h.commands| {
      assert Ok(h.silent, h.commands[n]);
      assert n !in m;
    }
  }

  /** The exact journal after every run; in particular a command whose worker gave up stalls
      it there for good, and nothing else does. */
  lemma JournalIsExact(silent: bool, steps: seq<Step>)
    ensures var r := Run(silent, steps); r.Some? ==> JournalIsPrefix(r.value)
  {
    hide ThreadsOk, BufferOk, AnswerOk, TurnsOk, ConsoleOk, LogOk, JournalIsPrefix, Run;
    RunKeepsInv(silent, steps);
    var r := Run(silent, steps);
    if r.Some? {
      InvGivesJournal(r.value);
    }
  }

  /** A journalled record tells the command, field by field; its raw output is what the PTY gave. */
  lemma RecordsTellTheCommand(silent: bool, steps: seq<Step>, k: nat)
    ensures var r := Run(silent, steps);
            r.Some? && k < |r.value.transcript.drained| ==>
              && k < |r.value.commands|
              && var c, record := r.value.commands[k], r.value.transcript.drained[k];
                 var e := record.entry;
                 && c.response.Some?
                 && e.whoami == c.request.whoami && e.dir == c.request.dir && e.envs == c.request.envs
                 && e.clearEnv == c.request.clearEnv && e.exec == c.request.exec && e.timeout == c.request.timeout
                 && e.exit == c.response.value.exit && e.error == c.response.value.error && e.time == Some(c.time)
                 && (c.spawned ==> record.rawOutput == c.pty.rawTotal && e.output == Filtered(c.pty.rawTotal))
                 && (!c.spawned ==> record.rawOutput == e.output == c.response.value.output)
  {
    hide Run, Filtered, ErrnoFound;
    JournalIsExact(silent, steps);
    var r := Run(silent, steps);
    if r.Some? && k < |r.value.transcript.drained| {
      OutputIsConserved(silent, steps, k);
    }
  }

  /** Once every worker is through, the journal is complete up to the first abandoned command. */
  lemma JournalStopsAtTheAbandoned(silent: bool, steps: seq<Step>, n: nat)
    ensures var r := Run(silent, steps);
            r.Some?
            && (forall i :: 0 <= i < |r.value.commands| ==> r.value.commands[i].worker == Done || r.value.commands[i].worker == Abandoned)
            && n <= |r.value.commands|
            && (forall i :: 0 <= i < n ==> r.value.commands[i].worker != Abandoned)
            && (n == |r.value.commands| || r.value.commands[n].worker == Abandoned)
            ==> |r.value.transcript.drained| == n
  {
    hide Run;
    JournalIsExact(silent, steps);
    var r := Run(silent, steps);
    if r.Some? && |r.value.transcript.drained| < |r.value.commands| {
      assert !Journalable(r.value.commands[|r.value.transcript.drained|]);
    }
    if r.Some? && n < |r.value.transcript.drained| <= |r.value.commands| {
      assert Journalable(r.value.commands[n]);
    }
  }

  lemma NoWorkAfterAbandoning(c: Command, a: WorkerAction)
    requires c.worker == Abandoned
    ensures !WorkerEnabled(c, a)
  {
    hide Startable;
  }

  lemma StaysAbandoned(c: Command, a: Action)
    requires Enabled(c, a) && c.worker == Abandoned
    ensures Act(c, a).worker == Abandoned
  {
    hide JobStep, JobEnabled, WorkerStep, WorkerEnabled, ReaderStep, TimerStep, WatcherStep;
    match a
    case ByReader(r) => ReaderTouchesOnlyTheBuffer(c, r);
    case ByWorker(w) => NoWorkAfterAbandoning(c, w);
    case ByJob(j) => JobTouchesOnlyItself(c, j);
    case ByTimer(t) => TimerTouchesOnlyItself(c, t);
    case ByWatcher(w) => WatcherTouchesOnlyItself(c, w);
  }

  /** An abandoned command stays abandoned. */
  lemma AbandonedForGood(h: Host, s: Step, i: nat)
    requires Linked(h.transcript) && StepEnabled(h, s) && i < |h.commands| && h.commands[i].worker == Abandoned
    ensures var g := Apply(h, s); i < |g.commands| && g.commands[i].worker == Abandoned
  {
    hide ReaderStep, TimerStep, WatcherStep, JobStep, Shows, RecordOf, Submitted, Logged, NewCommand;
    if s.Do? && s.number == i {
      StaysAbandoned(h.commands[i], s.action);
    }
  }

  /** However the run goes on, the journal never gets past an abandoned command. */
  lemma {:induction false} AbandonedStallsTheJournal(silent: bool, steps: seq<Step>, more: seq<Step>, k: nat)
    requires var r := Run(silent, steps); r.Some? && k < |r.value.commands| && r.value.commands[k].worker == Abandoned
    ensures var r := Run(silent, steps + more);
            r.Some? ==> && k < |r.value.commands| && r.value.commands[k].worker == Abandoned
                        && |r.value.transcript.drained| <= k
    decreases more
  {
    hide Apply, StepEnabled;
    JournalIsExact(silent, steps + more);
    if more == [] {
      assert steps + more == steps;
    } else {
      var before, last := more[..|more| - 1], more[|more| - 1];
      assert (steps + more)[..|steps + more| - 1] == steps + before;
      AbandonedStallsTheJournal(silent, steps, before, k);
      var r := Run(silent, steps + before);
      if r.Some? && StepEnabled(r.value, last) {
        AbandonedForGood(r.value, last, k);
      }
    }
    var g := Run(silent, steps + more);
    if g.Some? {
      assert !Journalable(g.value.commands[k]);
    }
  }

  lemma OneMoreStep(silent: bool, steps: seq<Step>, s: Step)
    requires var r := Run(silent, steps); r.Some? && StepEnabled(r.value, s)
    ensures Run(silent, steps + [s]) == Some(Apply(Run(silent, steps).value, s))
  {
    assert (steps + [s])[..|steps|] == steps;
  }

  /** A command arrives, fails to spawn and has its console job queued. */
  lemma FailedSpawn(steps: seq<Step>, h: Host, n: nat, request: Request, time: bytes, message: bytes) returns (more: seq<Step>)
    requires Run(false, steps) == Some(h) && |h.commands| == n && request.exec != []
    requires forall i :: 0 <= i < n ==> h.commands[i].connection != n
    ensures var r := Run(false, more);
            r.Some? && |r.value.commands| == n + 1 && r.value.commands[..n] == h.commands
            && r.value.commands[n].worker == AnsweringFailure(message) && r.value.commands[n].connection == n
  {
    OneMoreStep(false, steps, Arrive(n, request, time));
    more := steps + [Arrive(n, request, time)];
    OneMoreStep(false, more, Do(n, ByWorker(SpawnFails(message))));
    more := more + [Do(n, ByWorker(SpawnFails(message)))];
    OneMoreStep(false, more, Do(n, ByWorker(QueueJob)));
    more := more + [Do(n, ByWorker(QueueJob))];
  }

  /** Its answer cannot be written. */
  lemma LostAnswer(steps: seq<Step>, h: Host, n: nat) returns (more: seq<Step>)
    requires Run(false, steps) == Some(h) && n < |h.commands| && h.commands[n].worker.AnsweringFailure?
    ensures var r := Run(false, more);
            r.Some? && |r.value.commands| == |h.commands|
            && r.value.commands[n].worker == Abandoned && r.value.commands[n].connection == h.commands[n].connection
  {
    OneMoreStep(false, steps, Do(n, ByWorker(AnswerFailure(false))));
    more := steps + [Do(n, ByWorker(AnswerFailure(false)))];
  }

  /** It is answered and submitted. */
  lemma Completed(steps: seq<Step>, h: Host, n: nat) returns (more: seq<Step>)
    requires Run(false, steps) == Some(h) && n < |h.commands| && h.commands[n].worker.AnsweringFailure?
    ensures var r := Run(false, more);
            r.Some? && |r.value.commands| == |h.commands| && r.value.commands[n].worker == Done
            && forall k :: 0 <= k < |h.commands| && k != n ==> r.value.commands[k].worker == h.commands[k].worker
  {
    OneMoreStep(false, steps, Do(n, ByWorker(AnswerFailure(true))));
    more := steps + [Do(n, ByWorker(AnswerFailure(true)))];
    OneMoreStep(false, more, Submit(n));
    more := more + [Submit(n)];
  }

  /** It happens: the first command's answer cannot be written, the second completes, and the
      journal stays empty. */
  lemma JournalCanStall(request: Request, time: bytes, message: bytes) returns (steps: seq<Step>)
    requires request.exec != []
    ensures var r := Run(false, steps);
            r.Some? && |r.value.commands| == 2 && r.value.commands[1].worker == Done && r.value.transcript.drained == []
  {
    hide Apply, StepEnabled;
    steps := FailedSpawn([], NewHost(false), 0, request, time, message);
    steps := LostAnswer(steps, Run(false, steps).value, 0);
    steps := FailedSpawn(steps, Run(false, steps).value, 1, request, time, message);
    var h := Run(false, steps).value;
    assert h.commands[0] == h.commands[..1][0];
    steps := Completed(steps, h, 1);
    JournalIsExact(false, steps);
    assert !Journalable(Run(false, steps).value.commands[0]);
  }

  // ---------- the attachments ----------

  /** Every channel holds an unbroken stretch of the journal, raw if and only if it is so
      labelled, and that of a current attachment reaches to the journal's end. */
  lemma ChannelsAreStretches(silent: bool, steps: seq<Step>, id: nat)
    ensures var r := Run(silent, steps);
            r.Some? && id < |r.value.transcript.channels| ==>
              var q := r.value.transcript; var c := q.channels[id];
              && c.since + |c.sent| <= |q.drained|
              && (forall k :: 0 <= k < |c.sent| ==> c.sent[k] == Seen(q.drained[c.since + k], c.ansi))
              && (id in Senders(q.subscribers) ==> c.since + |c.sent| == |q.drained|)
  {
    hide CommandsOk, TurnsOk, ConsoleOk, LogOk, Reordered, Run, Seen;
    RunKeepsInv(silent, steps);
    var r := Run(silent, steps);
    if r.Some? && id < |r.value.transcript.channels| {
      assert ExactChannel(r.value.transcript.channels[id], r.value.transcript.drained);
    }
  }

  /** Who is not subscribed is sent nothing by any step, and nobody but a new attachment joins. */
  lemma UnsubscribedHearNothing(h: Host, s: Step, id: nat)
    requires JournalOk(h) && StepEnabled(h, s) && id < |h.transcript.channels|
    requires id !in Senders(h.transcript.subscribers)
    ensures var q := Apply(h, s).transcript;
            id < |q.channels| && id !in Senders(q.subscribers) && q.channels[id].sent == h.transcript.channels[id].sent
  {
    hide ExactChannel, Reordered, RecordOf, Act, Enabled;
    var q := h.transcript;
    match s
    case Submit(i) => SubmitIsExact(q, i, RecordOf(h.commands[i]));
    case Attach(ansi) => SubscribeIsExact(q, ansi);
    case _ =>
  }

  // ---------- progress ----------

  /** Every ticket is queued and every PTY has reached its end. */
  ghost predicate Settled(h: Host) {
    forall i :: 0 <= i < |h.commands| ==>
      h.commands[i].job != Unqueued && (h.commands[i].spawned ==> h.commands[i].pty.eof)
  }

  /** How many steps the job is from releasing its turn. */
  function Remaining(j: Job): nat {
    match j
    case Released => 0
    case Releasing => 1
    case Closing => 2
    case Writing(_, last) => if last then 3 else 5
    case Draining => 4
    case DrainAsleep => 5
    case Announcing => 6
    case _ => 7
  }

  function Total(commands: seq<Command>): nat {
    if commands == [] then 0 else Remaining(commands[0].job) + Total(commands[1..])
  }

  lemma {:induction false} TotalUpdate(commands: seq<Command>, i: nat, c: Command)
    requires i < |commands|
    ensures Total(commands[i := c]) + Remaining(commands[i].job) == Total(commands) + Remaining(c.job)
  {
    if i > 0 {
      assert commands[i := c][1..] == commands[1..][i - 1 := c];
      TotalUpdate(commands[1..], i - 1, c);
    } else {
      assert commands[i := c][1..] == commands[1..];
    }
  }

  lemma {:induction false} TotalSame(a: seq<Command>, b: seq<Command>)
    requires |a| == |b| && forall i :: 0 <= i < |a| ==> Remaining(a[i].job) == Remaining(b[i].job)
    ensures Total(a) == Total(b)
  {
    if a != [] {
      TotalSame(a[1..], b[1..]);
    }
  }

  /** The steps of console jobs, and whose they are. */
  predicate IsConsoleStep(s: Step) {
    (s.Do? && s.action.ByJob?) || s.LookAtQueue? || s.Release?
  }

  function Actor(s: Step): nat
    requires IsConsoleStep(s)
  {
    s.number
  }

  /** The one step the job that holds the ticket, or is next to, can always take. */
  function FrontStep(h: Host): Step
    requires h.printNext < |h.commands|
  {
    var i := h.printNext;
    match h.commands[i].job
    case AtQueue => LookAtQueue(i)
    case Announcing => Do(i, ByJob(Announce))
    case Draining => Do(i, ByJob(LookAtBuffer))
    case Writing(_, _) => Do(i, ByJob(WriteChunk))
    case Closing => Do(i, ByJob(CloseBlock))
    case _ => Release(i)
  }

  /** A job that moves on within its block comes nearer to its release. */
  lemma BlockStepProgress(c: Command, a: JobAction)
    requires JobEnabled(c, a) && a != LookAtBuffer && a != Wake
    requires c.job.Writing? || c.job == DrainAsleep ==> c.spawned && c.pty.eof
    ensures Remaining(JobStep(c, a).job) < Remaining(c.job)
  {
  }

  /** At the end of the PTY the drain never sleeps, and what it takes is the last chunk. */
  lemma LookProgress(c: Command)
    requires c.job == Draining && c.pty.eof
    ensures Remaining(JobStep(c, LookAtBuffer).job) < Remaining(c.job)
  {
  }

  lemma JobStepKeepsSettled(c: Command, a: JobAction)
    requires JobEnabled(c, a)
    ensures var d := JobStep(c, a); d.job != Unqueued && d.spawned == c.spawned && d.pty.eof == c.pty.eof
  {
    hide JobStep, JobEnabled;
    JobTouchesOnlyItself(c, a);
  }

  lemma DrainsAreSpawned(silent: bool, c: Command)
    requires BufferOk(silent, c)
    ensures c.job == Draining || c.job == DrainAsleep || c.job.Writing? ==> c.spawned
  {
    hide Filtered, EndState, Conserved;
  }

  lemma JobStepProgress(silent: bool, next: nat, i: nat, c: Command, a: JobAction)
    requires Ok(silent, c) && InTurn(next, i, c.job) && JobEnabled(c, a) && (c.spawned ==> c.pty.eof)
    ensures Remaining(JobStep(c, a).job) <= Remaining(c.job)
    ensures i == next ==> Remaining(JobStep(c, a).job) < Remaining(c.job)
    ensures var d := JobStep(c, a); d.job != Unqueued && d.spawned == c.spawned && d.pty.eof == c.pty.eof
  {
    hide BufferOk, ThreadsOk, AnswerOk;
    JobStepKeepsSettled(c, a);
    DrainsAreSpawned(silent, c);
    match a
    case LookAtBuffer => LookProgress(c);
    case Wake =>
    case _ => BlockStepProgress(c, a);
  }

  /** One job's step in terms of the total and of what is settled. */
  lemma OneJobHelps(h: Host, i: nat, d: Command)
    requires Settled(h) && i < |h.commands|
    requires d.job != Unqueued && (d.spawned ==> d.pty.eof)
    ensures Settled(h.(commands := h.commands[i := d]))
    ensures Total(h.commands[i := d]) + Remaining(h.commands[i].job) == Total(h.commands) + Remaining(d.job)
  {
    TotalUpdate(h.commands, i, d);
  }

  lemma DoHelps(h: Host, i: nat, a: JobAction)
    requires Inv(h) && Settled(h) && StepEnabled(h, Do(i, ByJob(a)))
    ensures var g := Apply(h, Do(i, ByJob(a)));
            && Settled(g) && Total(g.commands) <= Total(h.commands)
            && (i == h.printNext ==> Total(g.commands) < Total(h.commands))
  {
    hide Ok, ConsoleOk, JournalOk, LogOk, Shows, Act, Remaining, Total, Logged;
    var c := h.commands[i];
    assert Ok(h.silent, c) && InTurn(h.printNext, i, c.job);
    ActOfJob(c, a);
    JobStepProgress(h.silent, h.printNext, i, c, a);
    OneJobHelps(h, i, JobStep(c, a));
  }

  lemma LookHelps(h: Host, i: nat)
    requires TurnsOk(h) && Linked(h.transcript) && Settled(h) && StepEnabled(h, LookAtQueue(i))
    ensures var g := Apply(h, LookAtQueue(i));
            && Settled(g) && Total(g.commands) <= Total(h.commands)
            && (i == h.printNext ==> Total(g.commands) < Total(h.commands))
  {
    hide Total;
    OneJobHelps(h, i, h.commands[i].(job := AfterLook(h.silent, h.printNext, i)));
  }

  lemma ReleaseHelps(h: Host, i: nat)
    requires Linked(h.transcript) && Settled(h) && StepEnabled(h, Release(i))
    ensures var g := Apply(h, Release(i)); Settled(g) && Total(g.commands) < Total(h.commands)
  {
    hide Total, Linked;
    var released := h.commands[i := h.commands[i].(job := Released)];
    OneJobHelps(h, i, h.commands[i].(job := Released));
    TotalSame(released, AllWoken(released));
  }

  /** A thread other than the console job leaves the job where it is, or wakes its drain. */
  lemma OthersProgress(silent: bool, c: Command, a: Action)
    requires Ok(silent, c) && Enabled(c, a) && !a.ByJob?
    requires c.job != Unqueued && (c.spawned ==> c.pty.eof)
    ensures var d := Act(c, a);
            && Remaining(d.job) <= Remaining(c.job) && d.job != Unqueued && (d.spawned ==> d.pty.eof)
  {
    SettledHasNoReader(silent, c, a);
    hide BufferOk, AnswerOk, WorkerStep, WorkerEnabled, ReaderStep, TimerStep, WatcherStep, ThreadsOk;
    match a
    case ByWorker(w) => WorkerProgress(c, w);
    case ByTimer(t) => TimerTouchesOnlyItself(c, t);
    case ByWatcher(w) => WatcherTouchesOnlyItself(c, w);
    case _ =>
  }

  lemma SettledHasNoReader(silent: bool, c: Command, a: Action)
    requires Ok(silent, c) && Enabled(c, a) && (c.spawned ==> c.pty.eof)
    ensures !a.ByReader?
  {
    hide AnswerOk, WorkerEnabled, TimerEnabled, WatcherEnabled, JobEnabled, Filtered, EndState, Conserved;
  }

  lemma WorkerProgress(c: Command, a: WorkerAction)
    requires ThreadsOk(c) && WorkerEnabled(c, a) && c.job != Unqueued
    ensures var d := WorkerStep(c, a); d.job == c.job && d.spawned == c.spawned && d.pty == c.pty
  {
    assert !a.SpawnSucceeds? && a != QueueJob;
    hide WorkerStep, WorkerEnabled, ThreadsOk;
    WorkerTouchesNoBuffer(c, a);
  }

  lemma OtherDoHelps(h: Host, i: nat, a: Action)
    requires Inv(h) && Settled(h) && StepEnabled(h, Do(i, a)) && !a.ByJob?
    ensures var g := Apply(h, Do(i, a)); Settled(g) && Total(g.commands) <= Total(h.commands)
  {
    hide Ok, TurnsOk, ConsoleOk, JournalOk, LogOk, Shows, Act, Enabled, Remaining, Total, Logged;
    var c := h.commands[i];
    assert Ok(h.silent, c);
    OthersProgress(h.silent, c, a);
    OneJobHelps(h, i, Act(c, a));
  }

  lemma SubmitHelps(h: Host, i: nat)
    requires Linked(h.transcript) && Settled(h) && StepEnabled(h, Submit(i))
    ensures var g := Apply(h, Submit(i)); Settled(g) && Total(g.commands) == Total(h.commands)
  {
    hide Total, Remaining, RecordOf, Submitted, Linked;
    OneJobHelps(h, i, h.commands[i].(worker := Done));
  }

  lemma AttachmentStepHelps(h: Host, s: Step)
    requires Linked(h.transcript) && Settled(h) && StepEnabled(h, s) && (s.Attach? || s.HangUp? || s.CloseSubscriptions?)
    ensures var g := Apply(h, s); Settled(g) && Total(g.commands) == Total(h.commands)
  {
    hide Linked;
  }

  /** Until another command arrives no step of any thread sets the console back, and each step
      of the front job brings it forward. */
  lemma ConsoleStepsOnlyHelp(h: Host, s: Step)
    requires Inv(h) && Settled(h) && !s.Arrive? && StepEnabled(h, s)
    ensures Settled(Apply(h, s))
    ensures Total(Apply(h, s).commands) <= Total(h.commands)
    ensures IsConsoleStep(s) && Actor(s) == h.printNext ==> Total(Apply(h, s).commands) < Total(h.commands)
  {
    InvIsLinked(h);
    hide Settled, Total, Apply, CommandsOk, ConsoleOk, LogOk, Reordered, StepEnabled;
    match s
    case Do(i, a) => if a.ByJob? { DoHelps(h, i, a.job); } else { OtherDoHelps(h, i, a); }
    case LookAtQueue(i) => LookHelps(h, i);
    case Release(i) => ReleaseHelps(h, i);
    case Submit(i) => SubmitHelps(h, i);
    case Arrive(_, _, _) =>
    case Attach(_) => AttachmentStepHelps(h, s);
    case HangUp(_) => AttachmentStepHelps(h, s);
    case CloseSubscriptions => AttachmentStepHelps(h, s);
  }

  /** A command whose worker is through, or has given up, owes the console nothing but turns. */
  lemma ThroughIsSettled(silent: bool, c: Command)
    requires Ok(silent, c) && (c.worker == Done || c.worker == Abandoned)
    ensures c.job != Unqueued && (c.spawned ==> c.pty.eof)
  {
    hide AnswerOk, Filtered, EndState, Conserved;
  }

  /** So a host whose workers are all through is settled, whether they submitted or not. */
  lemma AllThroughIsSettled(h: Host)
    requires CommandsOk(h)
    requires forall i :: 0 <= i < |h.commands| ==> h.commands[i].worker == Done || h.commands[i].worker == Abandoned
    ensures Settled(h)
  {
    hide Ok;
    forall i | 0 <= i < |h.commands|
      ensures h.commands[i].job != Unqueued && (h.commands[i].spawned ==> h.commands[i].pty.eof)
    {
      ThroughIsSettled(h.silent, h.commands[i]);
    }
  }

  lemma ActOfJob(c: Command, a: JobAction)
    requires JobEnabled(c, a)
    ensures Act(c, ByJob(a)) == JobStep(c, a)
  {
  }

  lemma FrontIsNeverStuck(h: Host)
    requires Inv(h) && Settled(h) && h.printNext < |h.commands|
    ensures StepEnabled(h, FrontStep(h)) && IsConsoleStep(FrontStep(h)) && Actor(FrontStep(h)) == h.printNext
  {
    hide ConsoleOk, JournalOk, LogOk, ThreadsOk, AnswerOk, Banner, Conserved;
    var c := h.commands[h.printNext];
    assert Ok(h.silent, c) && InTurn(h.printNext, h.printNext, c.job);
  }

  ghost function RunOn(h: Host, steps: seq<Step>): Option<Host>
    requires Linked(h.transcript)
    decreases steps
  {
    if steps == [] then Some(h)
    else if !StepEnabled(h, steps[0]) then None
    else RunOn(Apply(h, steps[0]), steps[1..])
  }

  /** How many of these steps are the front job's. */
  ghost function FrontSteps(h: Host, steps: seq<Step>): nat
    requires Linked(h.transcript) && RunOn(h, steps).Some?
    decreases steps
  {
    if steps == [] then 0
    else
      (if IsConsoleStep(steps[0]) && Actor(steps[0]) == h.printNext then 1 else 0)
      + FrontSteps(Apply(h, steps[0]), steps[1..])
  }

  /** Under any schedule of all the threads, until a command arrives: the host stays settled,
      and the front job has at most Total steps to take. It can always take one, so nothing
      but leaving it out for good keeps the console from draining. */
  lemma {:induction false} AnyScheduleDrains(h: Host, steps: seq<Step>)
    requires Inv(h) && Settled(h) && Linked(h.transcript)
    requires RunOn(h, steps).Some? && forall k :: 0 <= k < |steps| ==> !steps[k].Arrive?
    ensures var g := RunOn(h, steps).value;
            && Inv(g) && Settled(g)
            && FrontSteps(h, steps) + Total(g.commands) <= Total(h.commands)
            && (g.printNext < |g.commands| ==> StepEnabled(g, FrontStep(g)))
    decreases steps
  {
    hide Inv, Settled, FrontStep, StepEnabled, Apply, IsConsoleStep, Total;
    if steps == [] {
      InvIsLinked(h);
      if h.printNext < |h.commands| {
        FrontIsNeverStuck(h);
      }
    } else {
      ConsoleStepsOnlyHelp(h, steps[0]);
      StepKeepsInv(h, steps[0]);
      InvIsLinked(Apply(h, steps[0]));
      AnyScheduleDrains(Apply(h, steps[0]), steps[1..]);
    }
  }

  /** What the console has to show in the end is settled. */
  lemma ConsoleStepKeepsBlocks(h: Host, s: Step)
    requires Linked(h.transcript) && IsConsoleStep(s) && StepEnabled(h, s)
    ensures |Apply(h, s).commands| == |h.commands| && Apply(h, s).silent == h.silent
    ensures Blocks(Apply(h, s).commands) == Blocks(h.commands)
    ensures forall i :: 0 <= i < |h.commands| ==> Apply(h, s).commands[i].worker == h.commands[i].worker
  {
    hide Linked, Shows, Logged, JobStep, JobEnabled, Banner;
    if s.Do? {
      JobTouchesOnlyItself(h.commands[s.number], s.action.job);
    }
  }

  lemma DrainedConsole(h: Host)
    requires Inv(h) && h.printNext == |h.commands| && !h.silent
    ensures h.console == Concat(Blocks(h.commands))
  {
    hide CommandsOk, TurnsOk, ConsoleOk, JournalOk, LogOk, Block;
    SerialisedConsole(h);
    assert h.commands[..|h.commands|] == h.commands;
    var blocks := Concat(Blocks(h.commands));
    assert blocks + [] == blocks;
  }

  /** Drain progress: a settled host prints everything it owes, in at most Total steps of the
      jobs whose turn it is; then the console is the complete blocks of all its commands. */
  lemma {:induction false} ConsoleDrains(h: Host) returns (steps: seq<Step>)
    requires Inv(h) && Settled(h)
    ensures |steps| <= Total(h.commands)
    ensures forall k :: 0 <= k < |steps| ==> IsConsoleStep(steps[k])
    ensures var r := RunOn(h, steps);
            && r.Some? && Inv(r.value) && r.value.printNext == |r.value.commands| == |h.commands|
            && (!h.silent ==> r.value.console == Concat(Blocks(h.commands)))
            && (forall i :: 0 <= i < |h.commands| ==> r.value.commands[i].worker == h.commands[i].worker)
    decreases Total(h.commands)
  {
    hide Inv, Settled, FrontStep, StepEnabled, Apply, IsConsoleStep, Blocks, Concat, Total;
    InvIsLinked(h);
    if h.printNext == |h.commands| {
      steps := [];
      if !h.silent {
        DrainedConsole(h);
      }
    } else {
      FrontIsNeverStuck(h);
      var s := FrontStep(h);
      ConsoleStepIsNoArrival(s);
      ConsoleStepsOnlyHelp(h, s);
      StepKeepsInv(h, s);
      ConsoleStepKeepsBlocks(h, s);
      var more := ConsoleDrains(Apply(h, s));
      steps := [s] + more;
      assert steps[1..] == more;
    }
  }

  lemma ConsoleStepIsNoArrival(s: Step)
    requires IsConsoleStep(s)
    ensures !s.Arrive?
  {
  }

  /** A run that goes on is a run. */
  lemma {:induction false} RunGoesOn(silent: bool, steps: seq<Step>, more: seq<Step>)
    requires Run(silent, steps).Some? && Linked(Run(silent, steps).value.transcript)
    requires RunOn(Run(silent, steps).value, more).Some?
    ensures Run(silent, steps + more) == RunOn(Run(silent, steps).value, more)
    decreases more
  {
    hide Run, Apply, StepEnabled;
    if more == [] {
      assert steps + more == steps;
    } else {
      OneMoreStep(silent, steps, more[0]);
      RunGoesOn(silent, steps + [more[0]], more[1..]);
      assert (steps + [more[0]]) + more[1..] == steps + more;
    }
  }

  /** The print queue has no gap: after any run in which every worker is through, whether it
      submitted its command or abandoned it, the host can go on to print all the blocks. */
  lemma AbandonedCommandsArePrinted(steps: seq<Step>) returns (more: seq<Step>)
    ensures var r := Run(false, steps);
            r.Some?
            && (forall i :: 0 <= i < |r.value.commands| ==> r.value.commands[i].worker == Done || r.value.commands[i].worker == Abandoned)
            ==> var g := Run(false, steps + more);
                && g.Some? && g.value.printNext == |g.value.commands| == |r.value.commands|
                && g.value.console == Concat(Blocks(r.value.commands))
                && (forall i :: 0 <= i < |r.value.commands| ==> g.value.commands[i].worker == r.value.commands[i].worker)
  {
    hide Run, RunOn, Inv, Settled, Total, Blocks, Concat, IsConsoleStep;
    more := [];
    var r := Run(false, steps);
    if r.Some? && forall i :: 0 <= i < |r.value.commands| ==> r.value.commands[i].worker == Done || r.value.commands[i].worker == Abandoned {
      RunKeepsInv(false, steps);
      InvIsOk(r.value);
      AllThroughIsSettled(r.value);
      more := ConsoleDrains(r.value);
      RunGoesOn(false, steps, more);
    }
  }

  lemma InvIsOk(h: Host)
    requires Inv(h)
    ensures CommandsOk(h)
  {
  }

  lemma InvIsLinked(h: Host)
    requires Inv(h)
    ensures Linked(h.transcript) && h.printNext <= |h.commands|
  {
    hide CommandsOk, ConsoleOk, LogOk, Reordered, Linked;
  }
}
