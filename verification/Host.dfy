/** The whole host: any number of commands on any number of connections, the console they
    share, the print ticket, the transcript queue and its attachments (src/host.rs). */
module Hosts {
  import opened Bytes
  import opened OutputFilters
  import opened Protocol
  import opened PtyBuffers
  import opened Rendering
  import opened TranscriptQueues
  import opened Commands

  datatype Event = Signalled(number: nat) | Reaped(number: nat)

  /** Commands are indexed by their sequence number, so `next_seq` is their count. `log` records
      the signals sent and the children reaped, in order. */
  datatype Host = Host(
    silent: bool,
    commands: seq<Command>,
    printNext: nat,
    console: bytes,
    transcript: Queue,
    log: seq<Event>)

  function NewHost(silent: bool): Host {
    Host(silent, [], 0, [], EMPTY, [])
  }

  /** The steps that take the print ticket, the transcript lock or `next_seq`, and the rest. */
  datatype Step =
    | Arrive(connection: nat, request: Request, time: bytes)
    | Do(number: nat, action: Action)
    | LookAtQueue(number: nat)
    | Release(number: nat)
    | Submit(number: nat)
    | Attach(ansi: bool)
    | HangUp(attachment: nat)
    | CloseSubscriptions

  /** A connection runs its commands one after the other, and none after one it abandoned. */
  predicate Idle(h: Host, connection: nat) {
    forall i :: 0 <= i < |h.commands| && h.commands[i].connection == connection ==> h.commands[i].worker == Done
  }

  predicate CanSubmit(c: Command) {
    c.worker == Submitting || c.worker == SubmittingFailure
  }

  predicate StepEnabled(h: Host, s: Step) {
    match s
    case Arrive(connection, request, _) => Idle(h, connection) && request.exec != []
    case Do(i, a) => i < |h.commands| && Enabled(h.commands[i], a)
    case LookAtQueue(i) => i < |h.commands| && h.commands[i].job == AtQueue
    case Release(i) => i < |h.commands| && h.commands[i].job == Releasing
    case Submit(i) => i < |h.commands| && CanSubmit(h.commands[i]) && h.commands[i].response.Some?
    case Attach(_) => true
    case HangUp(id) => id < |h.transcript.channels|
    case CloseSubscriptions => true
  }

  /** The job after one look at the ticket: asleep, or holding its turn. */
  function AfterLook(silent: bool, next: nat, number: nat): Job {
    if MustWait(next, number) then TurnAsleep else if silent then Releasing else Announcing
  }

  function Woken(c: Command): Command {
    if c.job == TurnAsleep then c.(job := AtQueue) else c
  }

  /** `notify_all` on the print queue. */
  function AllWoken(commands: seq<Command>): (woken: seq<Command>)
    ensures |woken| == |commands|
    ensures forall i :: 0 <= i < |commands| ==> woken[i] == Woken(commands[i])
  {
    seq(|commands|, i requires 0 <= i < |commands| => Woken(commands[i]))
  }

  function Logged(i: nat, a: Action): seq<Event> {
    if Signals(a) then [Signalled(i)]
    else if a.ByWorker? && a.worker.Reap? then [Reaped(i)]
    else []
  }

  ghost function Apply(h: Host, s: Step): Host
    requires StepEnabled(h, s) && Linked(h.transcript)
  {
    match s
    case Arrive(connection, request, time) =>
      h.(commands := h.commands + [NewCommand(connection, request, time, h.silent)])
    case Do(i, a) =>
      h.(commands := h.commands[i := Act(h.commands[i], a)],
         console := h.console + Shows(h.commands[i], a),
         log := h.log + Logged(i, a))
    case LookAtQueue(i) =>
      h.(commands := h.commands[i := h.commands[i].(job := AfterLook(h.silent, h.printNext, i))])
    case Release(i) =>
      h.(commands := AllWoken(h.commands[i := h.commands[i].(job := Released)]), printNext := h.printNext + 1)
    case Submit(i) =>
      h.(commands := h.commands[i := h.commands[i].(worker := Done)],
         transcript := Submitted(h.transcript, i, RecordOf(h.commands[i])))
    case Attach(ansi) => h.(transcript := Subscribed(h.transcript, ansi))
    case HangUp(id) => h.(transcript := HungUp(h.transcript, id))
    case CloseSubscriptions => h.(transcript := Unsubscribed(h.transcript))
  }

  // ---------- the invariant ----------

  ghost predicate CommandsOk(h: Host) {
    forall i :: 0 <= i < |h.commands| ==> Ok(h.silent, h.commands[i])
  }

  predicate Waiting(j: Job) {
    j == Unqueued || j == AtQueue || j == TurnAsleep
  }

  /** What the ticket says about the job with this number. */
  predicate InTurn(next: nat, i: nat, j: Job) {
    if i < next then j == Released
    else if i == next then j != Released && j != TurnAsleep
    else Waiting(j)
  }

  ghost predicate TurnsOk(h: Host) {
    && h.printNext <= |h.commands|
    && forall i :: 0 <= i < |h.commands| ==> InTurn(h.printNext, i, h.commands[i].job)
  }

  predicate ClosedBlock(j: Job) {
    j == Releasing || j == Released
  }

  /** What the command has put on the console so far. */
  function Shown(silent: bool, c: Command): bytes {
    if silent || BeforeBanner(c.job) then []
    else Banner(c.request, c.time) + c.printed + if ClosedBlock(c.job) then [LF] else []
  }

  function Parts(silent: bool, commands: seq<Command>): (parts: seq<bytes>)
    ensures |parts| == |commands|
    ensures forall i :: 0 <= i < |commands| ==> parts[i] == Shown(silent, commands[i])
  {
    seq(|commands|, i requires 0 <= i < |commands| => Shown(silent, commands[i]))
  }

  ghost predicate ConsoleOk(h: Host) {
    h.console == Concat(Parts(h.silent, h.commands))
  }

  /** The records of the commands that have been submitted. */
  ghost function Journalled(commands: seq<Command>): map<nat, Record> {
    map i: nat | i < |commands| && commands[i].worker == Done && commands[i].response.Some? :: RecordOf(commands[i])
  }

  ghost predicate JournalOk(h: Host) {
    && ExactStreams(h.transcript)
    && Reordered(h.transcript, Journalled(h.commands))
  }

  ghost predicate NoSignalAfterReap(log: seq<Event>) {
    forall j, k :: 0 <= j < k < |log| && log[j].Reaped? ==> log[k] != Signalled(log[j].number)
  }

  ghost predicate LogOk(h: Host) {
    && NoSignalAfterReap(h.log)
    && (forall k :: 0 <= k < |h.log| && h.log[k].Reaped? ==>
          h.log[k].number < |h.commands| && h.commands[h.log[k].number].reaped)
  }

  ghost predicate Inv(h: Host) {
    CommandsOk(h) && TurnsOk(h) && ConsoleOk(h) && JournalOk(h) && LogOk(h)
  }

  lemma NewHostIsOk(silent: bool)
    ensures Inv(NewHost(silent))
  {
    assert Journalled([]) == map[];
  }

  // ---------- the console ----------

  lemma SameShown(silent: bool, a: seq<Command>, b: seq<Command>)
    requires |a| == |b|
    requires forall i :: 0 <= i < |a| ==> Shown(silent, a[i]) == Shown(silent, b[i])
    ensures Parts(silent, a) == Parts(silent, b)
  {
  }

  /** A step of a command shows exactly what it emits, and only a job that holds its turn emits. */
  lemma StepShows(silent: bool, c: Command, a: Action)
    requires Ok(silent, c) && Enabled(c, a)
    ensures Shown(silent, Act(c, a)) == Shown(silent, c) + Shows(c, a)
    ensures Shows(c, a) != [] ==> !Waiting(c.job) && c.job != Released
  {
    if a.ByJob? {
      JobShowsInTurn(silent, c, a.job);
    } else {
      hide BufferOk, ThreadsOk, AnswerOk, WorkerStep, WorkerEnabled, ReaderStep, ReaderEnabled, TimerStep, WatcherStep, Shown;
      OthersShowNothing(c, a);
      SameParts(silent, c, Act(c, a));
      assert Shown(silent, c) + [] == Shown(silent, c);
    }
  }

  lemma JobShowsInTurn(silent: bool, c: Command, a: JobAction)
    requires Ok(silent, c) && JobEnabled(c, a)
    ensures Shown(silent, JobStep(c, a)) == Shown(silent, c) + Emission(c, a)
    ensures Emission(c, a) != [] ==> !Waiting(c.job) && c.job != Released
  {
    hide ThreadsOk, AnswerOk, Filtered, EndState, Conserved, Shown, JobStep, Banner;
    JobShows(silent, c, a);
  }

  lemma WorkerShowsNothing(c: Command, a: WorkerAction)
    requires ThreadsOk(c) && WorkerEnabled(c, a)
    ensures var d := WorkerStep(c, a);
            d.connection == c.connection && d.request == c.request && d.time == c.time && d.printed == c.printed
    ensures WorkerStep(c, a).job == c.job || (c.job == Unqueued && WorkerStep(c, a).job == AtQueue)
  {
    hide ThreadsOk, WorkerStep, WorkerEnabled;
    if a.SpawnSucceeds? {
      StartingShowsNothing(c, a.start);
    } else if a == QueueJob {
      QueueingShowsNothing(c);
    } else {
      WorkerTouchesNoBuffer(c, a);
    }
  }

  lemma StartingShowsNothing(c: Command, start: Start)
    requires WorkerEnabled(c, SpawnSucceeds(start))
    ensures var d := WorkerStep(c, SpawnSucceeds(start));
            d.connection == c.connection && d.request == c.request && d.time == c.time && d.printed == c.printed && d.job == c.job
  {
  }

  lemma QueueingShowsNothing(c: Command)
    requires ThreadsOk(c) && WorkerEnabled(c, QueueJob)
    ensures var d := WorkerStep(c, QueueJob);
            d.connection == c.connection && d.request == c.request && d.time == c.time && d.printed == c.printed && c.job == Unqueued && d.job == AtQueue
  {
  }

  lemma ReaderShowsNothing(c: Command, a: ReaderAction)
    requires ReaderEnabled(c, a)
    ensures var d := ReaderStep(c, a); d.request == c.request && d.time == c.time && d.printed == c.printed
    ensures ReaderStep(c, a).job == c.job || (c.job == DrainAsleep && ReaderStep(c, a).job == Draining)
  {
    hide ReaderStep, ReaderEnabled;
    ReaderTouchesOnlyTheBuffer(c, a);
  }

  /** Threads other than the job leave it alone, except that they wake or queue it. */
  lemma OthersShowNothing(c: Command, a: Action)
    requires ThreadsOk(c) && Enabled(c, a) && !a.ByJob?
    ensures var d := Act(c, a); d.request == c.request && d.time == c.time && d.printed == c.printed
    ensures var j := Act(c, a).job;
            j == c.job || (c.job == Unqueued && j == AtQueue) || (c.job == DrainAsleep && j == Draining)
  {
    hide WorkerStep, WorkerEnabled, ReaderStep, ReaderEnabled, TimerStep, TimerEnabled, WatcherStep, WatcherEnabled, ThreadsOk;
    match a
    case ByWorker(w) => WorkerShowsNothing(c, w);
    case ByReader(r) => ReaderShowsNothing(c, r);
    case ByTimer(t) => TimerTouchesOnlyItself(c, t);
    case ByWatcher(w) => WatcherTouchesOnlyItself(c, w);
    case _ =>
  }

  lemma SameParts(silent: bool, c: Command, d: Command)
    requires d.request == c.request && d.time == c.time && d.printed == c.printed
    requires BeforeBanner(d.job) == BeforeBanner(c.job) && ClosedBlock(d.job) == ClosedBlock(c.job)
    ensures Shown(silent, d) == Shown(silent, c)
  {
  }

  lemma LookingShowsNothing(silent: bool, c: Command)
    requires c.job == Draining
    ensures Shown(silent, JobStep(c, LookAtBuffer)) == Shown(silent, c)
  {
    hide Shown;
    SameParts(silent, c, JobStep(c, LookAtBuffer));
  }

  lemma WakingShowsNothing(silent: bool, c: Command, a: JobAction)
    requires JobEnabled(c, a) && (a == Wake || a == DrainWake)
    ensures Shown(silent, JobStep(c, a)) == Shown(silent, c)
  {
    hide Shown;
    SameParts(silent, c, JobStep(c, a));
  }

  lemma JobShows(silent: bool, c: Command, a: JobAction)
    requires silent ==> SilentJob(c.job)
    requires BeforeBanner(c.job) ==> c.printed == []
    requires JobEnabled(c, a)
    ensures Shown(silent, JobStep(c, a)) == Shown(silent, c) + Emission(c, a)
  {
    hide Shown, JobStep;
    match a
    case Announce => AnnouncingShows(silent, c);
    case WriteChunk => WritingShows(silent, c);
    case CloseBlock => ClosingShows(silent, c);
    case LookAtBuffer =>
      LookingShowsNothing(silent, c);
      assert Shown(silent, c) + [] == Shown(silent, c);
    case _ =>
      WakingShowsNothing(silent, c, a);
      assert Shown(silent, c) + [] == Shown(silent, c);
  }

  lemma AnnouncingShows(silent: bool, c: Command)
    requires !silent && c.job == Announcing && c.printed == []
    ensures Shown(silent, JobStep(c, Announce)) == Shown(silent, c) + Emission(c, Announce)
  {
    var banner := Banner(c.request, c.time);
    assert banner + [] + [] == [] + banner;
  }

  lemma WritingShows(silent: bool, c: Command)
    requires !silent && c.job.Writing?
    ensures Shown(silent, JobStep(c, WriteChunk)) == Shown(silent, c) + Emission(c, WriteChunk)
  {
    LongerBlock(Banner(c.request, c.time), c.printed, c.job.chunk);
  }

  lemma LongerBlock(banner: bytes, printed: bytes, chunk: bytes)
    ensures banner + (printed + chunk) + [] == (banner + printed + []) + chunk
  {
  }

  lemma ClosingShows(silent: bool, c: Command)
    requires !silent && c.job == Closing
    ensures Shown(silent, JobStep(c, CloseBlock)) == Shown(silent, c) + Emission(c, CloseBlock)
  {
    var block := Banner(c.request, c.time) + c.printed;
    assert block + [] == block;
  }

  // ---------- the journal ----------

  lemma WorkerKeepsRecord(silent: bool, c: Command, a: WorkerAction)
    requires Ok(silent, c) && WorkerEnabled(c, a)
    ensures c.worker != Done && WorkerStep(c, a).worker != Done
  {
    hide Ok, Classified, ErrnoFound, Startable;
  }

  lemma JobKeepsRecord(c: Command, a: JobAction)
    requires JobEnabled(c, a)
    ensures var d := JobStep(c, a);
            && d.worker == c.worker && d.response == c.response
            && (c.response.Some? ==> RecordOf(d) == RecordOf(c))
  {
    hide JobStep, JobEnabled;
    JobTouchesOnlyItself(c, a);
  }

  lemma DoneIsJoined(c: Command, a: Action)
    requires ThreadsOk(c) && Enabled(c, a) && (a.ByReader? || a.ByTimer? || a.ByWatcher?)
    ensures c.worker != Done
  {
    hide WorkerEnabled, JobEnabled;
  }

  lemma OthersAreNotDone(c: Command, a: Action)
    requires ThreadsOk(c) && Enabled(c, a) && !a.ByJob? && !a.ByWorker?
    ensures c.worker != Done && Act(c, a).worker == c.worker
  {
    DoneIsJoined(c, a);
    hide ThreadsOk, TimerStep, WatcherStep, ReaderStep, WorkerStep, JobStep;
    match a
    case ByReader(r) => ReaderTouchesOnlyTheBuffer(c, r);
    case ByTimer(t) => TimerTouchesOnlyItself(c, t);
    case ByWatcher(w) => WatcherTouchesOnlyItself(c, w);
    case _ =>
  }

  /** A step of a thread neither submits a command nor changes what was submitted. */
  lemma StepKeepsRecord(silent: bool, c: Command, a: Action)
    requires Ok(silent, c) && Enabled(c, a)
    ensures Act(c, a).worker == Done <==> c.worker == Done
    ensures c.worker == Done ==> Act(c, a).response == c.response && c.response.Some? && RecordOf(Act(c, a)) == RecordOf(c)
  {
    hide BufferOk, ThreadsOk, RecordOf, JobStep, WorkerStep, ReaderStep, TimerStep, WatcherStep;
    match a
    case ByJob(j) => JobKeepsRecord(c, j);
    case ByWorker(w) => WorkerKeepsRecord(silent, c, w);
    case _ => OthersAreNotDone(c, a);
  }

  lemma SameJournalled(a: seq<Command>, b: seq<Command>)
    requires |a| <= |b|
    requires forall i :: 0 <= i < |a| ==>
      && (a[i].worker == Done && a[i].response.Some? <==> b[i].worker == Done && b[i].response.Some?)
      && (a[i].worker == Done && a[i].response.Some? ==> RecordOf(a[i]) == RecordOf(b[i]))
    requires forall i :: |a| <= i < |b| ==> b[i].worker != Done
    ensures Journalled(b) == Journalled(a)
  {
  }

  // ---------- steps ----------

  lemma NewParts(silent: bool, commands: seq<Command>, c: Command)
    requires BeforeBanner(c.job)
    ensures Concat(Parts(silent, commands + [c])) == Concat(Parts(silent, commands))
  {
    var parts := Parts(silent, commands);
    assert Parts(silent, commands + [c]) == parts + [[]];
    ConcatAppend(parts, [[]]);
    ConcatNothing([[]]);
    assert Concat(parts) + [] == Concat(parts);
  }

  lemma ArriveKeepsTurns(h: Host, c: Command)
    requires TurnsOk(h) && LogOk(h) && c.job == Unqueued
    ensures var g := h.(commands := h.commands + [c]); TurnsOk(g) && LogOk(g)
  {
  }

  lemma ArriveKeepsInv(h: Host, connection: nat, request: Request, time: bytes)
    requires Inv(h) && StepEnabled(h, Arrive(connection, request, time))
    ensures Inv(Apply(h, Arrive(connection, request, time)))
  {
    hide Ok, Shown, Idle, ExactStreams, Reordered, RecordOf, NewCommand, TurnsOk, LogOk;
    var c := NewCommand(connection, request, time, h.silent);
    NewCommandIsOk(connection, request, time, h.silent);
    NewCommandIsIdle(connection, request, time, h.silent);
    ArriveKeepsTurns(h, c);
    NewParts(h.silent, h.commands, c);
    SameJournalled(h.commands, h.commands + [c]);
  }

  lemma NewCommandIsIdle(connection: nat, request: Request, time: bytes, silent: bool)
    ensures var c := NewCommand(connection, request, time, silent); c.job == Unqueued && c.worker == Spawning
  {
  }

  lemma JobInTurn(next: nat, i: nat, c: Command, a: JobAction)
    requires InTurn(next, i, c.job) && JobEnabled(c, a)
    ensures InTurn(next, i, JobStep(c, a).job)
  {
  }

  lemma ActInTurn(next: nat, i: nat, c: Command, a: Action)
    requires ThreadsOk(c) && InTurn(next, i, c.job) && Enabled(c, a)
    ensures InTurn(next, i, Act(c, a).job)
  {
    hide WorkerStep, ReaderStep, TimerStep, WatcherStep, WorkerEnabled, ReaderEnabled, TimerEnabled, WatcherEnabled, ThreadsOk;
    if a.ByJob? {
      JobInTurn(next, i, c, a.job);
    } else {
      OthersShowNothing(c, a);
    }
  }

  lemma DoKeepsTurns(h: Host, i: nat, a: Action)
    requires Inv(h) && StepEnabled(h, Do(i, a))
    ensures TurnsOk(Apply(h, Do(i, a)))
  {
    var c := h.commands[i];
    assert Ok(h.silent, c) && InTurn(h.printNext, i, c.job);
    ActInTurn(h.printNext, i, c, a);
  }

  lemma WaitingShowsNothing(silent: bool, c: Command)
    requires Waiting(c.job)
    ensures Shown(silent, c) == []
  {
  }

  lemma DoKeepsConsole(h: Host, i: nat, a: Action)
    requires Inv(h) && StepEnabled(h, Do(i, a))
    ensures ConsoleOk(Apply(h, Do(i, a)))
  {
    hide Ok, Shown, Act;
    var c := h.commands[i];
    assert Ok(h.silent, c) && InTurn(h.printNext, i, c.job);
    StepShows(h.silent, c, a);
    forall k | i < k < |h.commands| && Shows(c, a) != [] ensures Shown(h.silent, h.commands[k]) == [] {
      assert InTurn(h.printNext, k, h.commands[k].job);
      WaitingShowsNothing(h.silent, h.commands[k]);
    }
    ConcatGrow(Parts(h.silent, h.commands), i, Shows(c, a));
    assert Parts(h.silent, h.commands[i := Act(c, a)]) == Parts(h.silent, h.commands)[i := Shown(h.silent, Act(c, a))];
  }

  lemma DoKeepsJournal(h: Host, i: nat, a: Action)
    requires Inv(h) && StepEnabled(h, Do(i, a))
    ensures JournalOk(Apply(h, Do(i, a)))
  {
    hide Ok, Act;
    var c := h.commands[i];
    assert Ok(h.silent, c);
    StepKeepsRecord(h.silent, c, a);
    SameJournalled(h.commands, h.commands[i := Act(c, a)]);
  }

  lemma LogGrows(log: seq<Event>, e: Event)
    requires NoSignalAfterReap(log)
    requires e.Signalled? ==> forall k :: 0 <= k < |log| ==> log[k] != Reaped(e.number)
    ensures NoSignalAfterReap(log + [e])
  {
  }

  lemma WorkerAndReap(c: Command, a: WorkerAction)
    requires WorkerEnabled(c, a)
    ensures c.reaped || a.Reap? ==> WorkerStep(c, a).reaped
  {
    hide Classified, ErrnoFound, Startable;
  }

  lemma OthersKeepReaped(c: Command, a: Action)
    requires Enabled(c, a) && !a.ByWorker?
    ensures Act(c, a).reaped == c.reaped
  {
    hide JobStep, JobEnabled, ReaderStep, TimerStep, WatcherStep;
    match a
    case ByReader(r) => ReaderTouchesOnlyTheBuffer(c, r);
    case ByTimer(t) => TimerTouchesOnlyItself(c, t);
    case ByWatcher(w) => WatcherTouchesOnlyItself(c, w);
    case ByJob(j) => JobTouchesOnlyItself(c, j);
    case _ =>
  }

  lemma ActAndReap(silent: bool, c: Command, a: Action)
    requires Ok(silent, c) && Enabled(c, a)
    ensures c.reaped ==> !Signals(a) && Act(c, a).reaped
    ensures a.ByWorker? && a.worker.Reap? ==> Act(c, a).reaped && !Signals(a)
  {
    if c.reaped {
      NoSignalOnceReaped(silent, c, a);
    }
    hide Ok, WorkerStep, WorkerEnabled, ReaderStep, TimerStep, WatcherStep, JobStep;
    if a.ByWorker? {
      WorkerAndReap(c, a.worker);
    } else {
      OthersKeepReaped(c, a);
    }
  }

  lemma DoKeepsLog(h: Host, i: nat, a: Action)
    requires Inv(h) && StepEnabled(h, Do(i, a))
    ensures LogOk(Apply(h, Do(i, a)))
  {
    hide Ok, Act, Shows, Enabled, Signals;
    var c := h.commands[i];
    assert Ok(h.silent, c);
    ActAndReap(h.silent, c, a);
    if Logged(i, a) == [] {
      assert h.log + [] == h.log;
    } else {
      LogGrows(h.log, Logged(i, a)[0]);
      assert Logged(i, a) == [Logged(i, a)[0]];
    }
  }

  lemma DoKeepsInv(h: Host, i: nat, a: Action)
    requires Inv(h) && StepEnabled(h, Do(i, a))
    ensures Inv(Apply(h, Do(i, a)))
  {
    hide Ok, Act, Shown;
    ActKeepsOk(h.silent, h.commands[i], a);
    DoKeepsTurns(h, i, a);
    DoKeepsConsole(h, i, a);
    DoKeepsJournal(h, i, a);
    DoKeepsLog(h, i, a);
  }

  /** The parts of a command that the journal depends on. */
  ghost predicate SameRecord(c: Command, d: Command) {
    && c.worker == d.worker && c.response == d.response
    && (c.response.Some? ==> RecordOf(c) == RecordOf(d))
  }

  /** Commands changed in what they are about to do, not in what they have shown or recorded. */
  lemma QuietChangeKeepsInv(h: Host, commands: seq<Command>, next: nat)
    requires Inv(h) && |commands| == |h.commands|
    requires forall i :: 0 <= i < |commands| ==>
      && Ok(h.silent, commands[i])
      && SameRecord(h.commands[i], commands[i])
      && commands[i].reaped == h.commands[i].reaped
      && Shown(h.silent, commands[i]) == Shown(h.silent, h.commands[i])
    requires TurnsOk(h.(commands := commands, printNext := next))
    ensures Inv(h.(commands := commands, printNext := next))
  {
    hide Ok, Shown;
    SameShown(h.silent, h.commands, commands);
    SameJournalled(h.commands, commands);
  }

  lemma LookIsQuiet(silent: bool, next: nat, i: nat, c: Command)
    requires Ok(silent, c) && InTurn(next, i, c.job) && c.job == AtQueue
    ensures var d := c.(job := AfterLook(silent, next, i));
            Ok(silent, d) && SameRecord(c, d) && Shown(silent, d) == Shown(silent, c) && InTurn(next, i, d.job)
  {
  }

  lemma LookKeepsInv(h: Host, i: nat)
    requires Inv(h) && StepEnabled(h, LookAtQueue(i))
    ensures Inv(Apply(h, LookAtQueue(i)))
  {
    hide Ok, Shown;
    assert Ok(h.silent, h.commands[i]) && InTurn(h.printNext, i, h.commands[i].job);
    LookIsQuiet(h.silent, h.printNext, i, h.commands[i]);
    QuietChangeKeepsInv(h, Apply(h, LookAtQueue(i)).commands, h.printNext);
  }

  lemma ReleaseIsQuiet(silent: bool, c: Command)
    requires Ok(silent, c) && c.job == Releasing
    ensures var d := c.(job := Released);
            Ok(silent, d) && SameRecord(c, d) && Shown(silent, d) == Shown(silent, c)
  {
    JobChangeKeepsTheRest(c, c.(job := Released));
    hide ThreadsOk, AnswerOk, Filtered, EndState, Banner;
  }

  lemma WakingIsQuiet(silent: bool, c: Command)
    requires Ok(silent, c)
    ensures var d := Woken(c);
            Ok(silent, d) && SameRecord(c, d) && Shown(silent, d) == Shown(silent, c)
  {
  }

  lemma ReleaseKeepsInv(h: Host, i: nat)
    requires Inv(h) && StepEnabled(h, Release(i))
    ensures Inv(Apply(h, Release(i)))
  {
    hide Ok, Shown;
    assert InTurn(h.printNext, i, h.commands[i].job);
    var g := Apply(h, Release(i));
    forall k | 0 <= k < |g.commands|
      ensures Ok(h.silent, g.commands[k]) && InTurn(g.printNext, k, g.commands[k].job)
      ensures SameRecord(h.commands[k], g.commands[k]) && g.commands[k].reaped == h.commands[k].reaped
      ensures Shown(h.silent, g.commands[k]) == Shown(h.silent, h.commands[k])
    {
      assert Ok(h.silent, h.commands[k]) && InTurn(h.printNext, k, h.commands[k].job);
      if k == i {
        ReleaseIsQuiet(h.silent, h.commands[k]);
      } else {
        WakingIsQuiet(h.silent, h.commands[k]);
      }
    }
    QuietChangeKeepsInv(h, g.commands, g.printNext);
  }

  lemma SubmitIsQuiet(silent: bool, c: Command)
    requires Ok(silent, c) && CanSubmit(c)
    ensures var d := c.(worker := Done);
            && Ok(silent, d) && Shown(silent, d) == Shown(silent, c)
            && c.response.Some? && RecordOf(d) == RecordOf(c)
  {
  }

  lemma OneMoreJournalled(commands: seq<Command>, i: nat)
    requires i < |commands| && commands[i].worker != Done && commands[i].response.Some?
    ensures i !in Journalled(commands)
    ensures Journalled(commands[i := commands[i].(worker := Done)]) == Journalled(commands)[i := RecordOf(commands[i])]
  {
  }

  lemma SubmitKeepsJournal(h: Host, i: nat)
    requires JournalOk(h) && StepEnabled(h, Submit(i))
    ensures JournalOk(Apply(h, Submit(i)))
  {
    OneMoreJournalled(h.commands, i);
    SubmitReorders(h.transcript, Journalled(h.commands), i, RecordOf(h.commands[i]));
    SubmitIsExact(h.transcript, i, RecordOf(h.commands[i]));
  }

  lemma SubmitKeepsCommands(h: Host, i: nat)
    requires Inv(h) && StepEnabled(h, Submit(i))
    ensures CommandsOk(Apply(h, Submit(i))) && TurnsOk(Apply(h, Submit(i))) && ConsoleOk(Apply(h, Submit(i)))
  {
    hide Ok, Shown;
    var c := h.commands[i];
    assert Ok(h.silent, c) && InTurn(h.printNext, i, c.job);
    SubmitIsQuiet(h.silent, c);
    SameShown(h.silent, h.commands, h.commands[i := c.(worker := Done)]);
  }

  lemma SubmitKeepsLog(h: Host, i: nat)
    requires LogOk(h) && Linked(h.transcript) && StepEnabled(h, Submit(i))
    ensures LogOk(Apply(h, Submit(i)))
  {
    hide Submitted, RecordOf, Linked, NoSignalAfterReap;
  }

  lemma SubmitKeepsInv(h: Host, i: nat)
    requires Inv(h) && StepEnabled(h, Submit(i))
    ensures Inv(Apply(h, Submit(i)))
  {
    hide CommandsOk, TurnsOk, ConsoleOk, LogOk, Reordered, Linked, Apply, StepEnabled;
    SubmitKeepsCommands(h, i);
    SubmitKeepsJournal(h, i);
    SubmitKeepsLog(h, i);
  }

  /** A change of the transcript queue alone. */
  lemma QueueChangeKeepsInv(h: Host, q: Queue)
    requires Inv(h) && ExactStreams(q) && Reordered(q, Journalled(h.commands))
    ensures Inv(h.(transcript := q))
  {
    hide Ok, Shown, InTurn, NoSignalAfterReap, ExactStreams, Reordered;
  }

  /** Steps that touch nothing but the attachments. */
  lemma AttachmentStepKeepsInv(h: Host, s: Step)
    requires Inv(h) && StepEnabled(h, s) && (s.Attach? || s.HangUp? || s.CloseSubscriptions?)
    ensures Inv(Apply(h, s))
  {
    var q, m := h.transcript, Journalled(h.commands);
    assert ExactStreams(q) && Reordered(q, m) by {
      hide CommandsOk, TurnsOk, ConsoleOk, LogOk, ExactStreams, Reordered, Journalled;
    }
    hide Inv, Journalled;
    match s
    case Attach(ansi) =>
      SubscribeIsExact(q, ansi);
      QueueChangeKeepsInv(h, Subscribed(q, ansi));
    case HangUp(id) =>
      HangUpIsExact(q, id);
      QueueChangeKeepsInv(h, HungUp(q, id));
    case _ => QueueChangeKeepsInv(h, Unsubscribed(q));
  }

  /** Every step of every thread keeps the invariant. */
  lemma StepKeepsInv(h: Host, s: Step)
    requires Inv(h) && StepEnabled(h, s)
    ensures Inv(Apply(h, s))
  {
    hide Inv, Apply, StepEnabled;
    match s
    case Arrive(c, r, t) => ArriveKeepsInv(h, c, r, t);
    case Do(i, a) => DoKeepsInv(h, i, a);
    case LookAtQueue(i) => LookKeepsInv(h, i);
    case Release(i) => ReleaseKeepsInv(h, i);
    case Submit(i) => SubmitKeepsInv(h, i);
    case _ => AttachmentStepKeepsInv(h, s);
  }

  /** The host after a run of steps from a fresh start; None when a step was not possible. */
  ghost function Run(silent: bool, steps: seq<Step>): (r: Option<Host>)
    ensures r.Some? ==> Linked(r.value.transcript)
  {
    if steps == [] then Some(NewHost(silent))
    else
      var before := Run(silent, steps[..|steps| - 1]);
      var last := steps[|steps| - 1];
      if before.None? || !StepEnabled(before.value, last) then None
      else Some(Apply(before.value, last))
  }

  /** The invariant holds after every run. */
  lemma {:induction false} RunKeepsInv(silent: bool, steps: seq<Step>)
    ensures var r := Run(silent, steps); r.Some? ==> Inv(r.value) && r.value.silent == silent
  {
    hide Inv, Apply, StepEnabled, NewHost;
    if steps == [] {
      NewHostIsOk(silent);
      assert NewHost(silent).silent == silent by {
        NewHostIsSilent(silent);
      }
    } else {
      RunKeepsInv(silent, steps[..|steps| - 1]);
      var before := Run(silent, steps[..|steps| - 1]);
      var last := steps[|steps| - 1];
      if before.Some? && StepEnabled(before.value, last) {
        StepKeepsInv(before.value, last);
        StepKeepsSilence(before.value, last);
      }
    }
  }

  lemma NewHostIsSilent(silent: bool)
    ensures NewHost(silent).silent == silent
  {
  }

  lemma StepKeepsSilence(h: Host, s: Step)
    requires Linked(h.transcript) && StepEnabled(h, s)
    ensures Apply(h, s).silent == h.silent
  {
  }
}
