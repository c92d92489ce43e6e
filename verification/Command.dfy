/** One command on the host: the connection worker that runs it, its PTY reader, timeout
    thread, abort watcher and console job, as threads that take one step at a time
    (src/host.rs). */
module Commands {
  import opened Bytes
  import opened OutputFilters
  import opened Protocol
  import opened PtyBuffers
  import opened Rendering
  import opened TranscriptQueues
  import P = PtyExec
  import S = Sessions

  /** Where the connection worker is; each constructor names what it does next. */
  datatype Worker =
    | Spawning
    | QueueingFailure(message: bytes) | AnsweringFailure(message: bytes) | SubmittingFailure
    | QueueingJob | JoiningReader | SettingFinished | CancellingTimer | JoiningTimer | JoiningWatcher
    | Reaping | ReadingErrno | Answering | Submitting
    | Done
    | Abandoned

  datatype Reader = NoReader | Reading | ReaderGone
  datatype Timer = NoTimer | Armed | Terminating | Killing | TimerGone(fired: bool)
  datatype Watcher = NoWatcher | Checking | Listening | Aborting | Finishing | Returned(aborted: bool) | Panicked
  datatype Job =
    | Unqueued | AtQueue | TurnAsleep
    | Announcing | Draining | DrainAsleep | Writing(chunk: bytes, last: bool) | Closing | Releasing
    | Released

  /** How the start of a child goes: the host's environment, the order its overrides are gone
      through, the child's calls up to `execvp`, and the two ends of the errno pipe. */
  datatype Start = Start(
    inherited: P.Env,
    envs: seq<(bytes, bytes)>,
    outcomes: seq<P.Outcome>,
    writes: seq<P.Io>,
    read: P.PipeRead)

  const NO_START := Start(map[], [], [], [], P.PipeRead(true, []))

  datatype Command = Command(
    connection: nat,
    request: Request,
    time: bytes,
    spawned: bool,
    start: Start,
    worker: Worker,
    reader: Reader,
    filter: State,
    pty: Pty,
    timer: Timer,
    cancelSent: bool,
    watcher: Watcher,
    finished: bool,
    reaped: bool,
    status: int,
    errno: bool,
    response: Option<Response>,
    job: Job,
    printed: bytes)

  function NewCommand(connection: nat, request: Request, time: bytes, silent: bool): Command {
    Command(connection, request, time, false, NO_START, Spawning, NoReader, Normal, NewPty(silent), NoTimer, false,
            NoWatcher, false, false, 0, false, None, Unqueued, [])
  }

  // ---------- the connection worker ----------

  datatype WorkerAction =
    | SpawnSucceeds(start: Start)
    | SpawnFails(message: bytes)
    | QueueJob
    | AnswerFailure(written: bool)
    | JoinReader
    | SetFinished
    | CancelTimer
    | JoinTimer
    | JoinWatcher
    | Reap(status: int)
    | ReadErrno(read: P.PipeRead)
    | Answer(written: bool)

  /** The overrides are gone through one by one and `spawn` refuses nothing. */
  predicate Startable(r: Request, envs: seq<(bytes, bytes)>) {
    P.Lists(envs, r.envs) && P.Refusal(r.whoami, r.exec, envs, r.dir) == None
  }

  function EndOfStart(r: Request, start: Start): P.ChildEnd {
    P.RunChild(start.inherited, P.Calls(r.clearEnv, start.envs, r.whoami), start.outcomes)
  }

  /** The child's report, once it is gone: nothing else writes to the pipe. */
  function ErrnoPipe(r: Request, start: Start): bytes {
    P.PipeAfter(EndOfStart(r, start), start.writes)
  }

  function ErrnoFound(r: Request, start: Start): bool {
    P.Learnt(ErrnoPipe(r, start), start.read).Some?
  }

  predicate WorkerEnabled(c: Command, a: WorkerAction) {
    match a
    case SpawnSucceeds(start) => c.worker == Spawning && Startable(c.request, start.envs)
    case SpawnFails(_) => c.worker == Spawning
    case QueueJob => c.worker.QueueingFailure? || c.worker == QueueingJob
    case AnswerFailure(_) => c.worker.AnsweringFailure?
    case JoinReader => c.worker == JoiningReader && c.reader == ReaderGone
    case SetFinished => c.worker == SettingFinished
    case CancelTimer => c.worker == CancellingTimer
    case JoinTimer => c.worker == JoiningTimer && c.timer.TimerGone?
    case JoinWatcher => c.worker == JoiningWatcher && (c.watcher.Returned? || c.watcher == Panicked)
    case Reap(_) => c.worker == Reaping
    case ReadErrno(_) => c.worker == ReadingErrno
    case Answer(_) => c.worker == Answering
  }

  /** The outcome by priority: an errno on the pipe, the timeout, an abort, the exit status. */
  function Classified(c: Command, errno: bool): Response {
    if errno then Response(127, c.pty.filteredTotal, Some(NotFound))
    else if c.timer == TimerGone(true) then Response(124, c.pty.filteredTotal, Some(TimedOut))
    else if c.watcher == Returned(true) then Response(c.status, c.pty.filteredTotal, Some(Aborted))
    else Response(c.status, c.pty.filteredTotal, None)
  }

  function WorkerStep(c: Command, a: WorkerAction): Command
    requires WorkerEnabled(c, a)
  {
    match a
    case SpawnSucceeds(start) =>
      c.(spawned := true, start := start, worker := QueueingJob, reader := Reading, watcher := Checking,
         timer := if c.request.timeout == 0 then NoTimer else Armed)
    case SpawnFails(message) => c.(worker := QueueingFailure(message))
    case QueueJob =>
      c.(job := AtQueue,
         worker := if c.worker.QueueingFailure? then AnsweringFailure(c.worker.message) else JoiningReader)
    case AnswerFailure(written) =>
      if written then
        c.(worker := SubmittingFailure, response := Some(Response(127, c.worker.message, Some(SpawnFailed))))
      else c.(worker := Abandoned)
    case JoinReader => c.(worker := SettingFinished)
    case SetFinished => c.(worker := CancellingTimer, finished := true)
    case CancelTimer =>
      if c.timer == NoTimer then c.(worker := JoiningWatcher)
      else c.(worker := JoiningTimer, cancelSent := true)
    case JoinTimer => c.(worker := JoiningWatcher)
    case JoinWatcher => c.(worker := if c.watcher.Returned? then Reaping else Abandoned)
    case Reap(status) => c.(worker := ReadingErrno, reaped := true, status := status)
    case ReadErrno(read) =>
      var start := c.start.(read := read);
      var found := ErrnoFound(c.request, start);
      c.(worker := Answering, start := start, errno := found, response := Some(Classified(c, found)))
    case Answer(_) => c.(worker := Submitting)
  }

  // ---------- the other threads ----------

  const READ_SIZE := 8192

  datatype ReaderAction = Chunk(bytes: bytes) | EndOfFile

  predicate ReaderEnabled(c: Command, a: ReaderAction) {
    c.reader == Reading && (a.Chunk? ==> 0 < |a.bytes| <= READ_SIZE)
  }

  /** Both end in a notify on the buffer's condition variable. */
  function ReaderStep(c: Command, a: ReaderAction): Command
    requires ReaderEnabled(c, a)
  {
    var job := if c.job == DrainAsleep then Draining else c.job;
    match a
    case Chunk(b) => c.(pty := Produced(c.pty, c.filter, b), filter := EndState(c.filter, b), job := job)
    case EndOfFile => c.(pty := Ended(c.pty), reader := ReaderGone, job := job)
  }

  datatype TimerAction = Expire | SeeCancel | TimerTerm | TimerKill

  predicate TimerEnabled(c: Command, a: TimerAction) {
    match a
    case Expire => c.timer == Armed && !c.cancelSent
    case SeeCancel => c.timer == Armed && c.cancelSent
    case TimerTerm => c.timer == Terminating
    case TimerKill => c.timer == Killing
  }

  function TimerStep(c: Command, a: TimerAction): Command
    requires TimerEnabled(c, a)
  {
    match a
    case Expire => c.(timer := Terminating)
    case SeeCancel => c.(timer := TimerGone(false))
    case TimerTerm => c.(timer := Killing)
    case TimerKill => c.(timer := TimerGone(true))
  }

  datatype WatcherAction = CheckFinished | Hear(heard: S.Heard) | WatcherTerm | WatcherKill | Panic

  predicate WatcherEnabled(c: Command, a: WatcherAction) {
    match a
    case CheckFinished => c.watcher == Checking
    case Hear(_) => c.watcher == Listening
    case WatcherTerm => c.watcher == Aborting
    case WatcherKill => c.watcher == Finishing
    case Panic => c.watcher == Checking || c.watcher == Listening
  }

  function WatcherStep(c: Command, a: WatcherAction): Command
    requires WatcherEnabled(c, a)
  {
    match a
    case CheckFinished => c.(watcher := if c.finished then Returned(false) else Listening)
    case Hear(h) => c.(watcher := if h == S.Got(S.Abort) || h == S.Disconnected then Aborting else Checking)
    case WatcherTerm => c.(watcher := Finishing)
    case WatcherKill => c.(watcher := Returned(true))
    case Panic => c.(watcher := Panicked)
  }

  /** `Wake` and `DrainWake` are wake-ups nobody asked for. */
  datatype JobAction = Wake | Announce | LookAtBuffer | DrainWake | WriteChunk | CloseBlock

  predicate JobEnabled(c: Command, a: JobAction) {
    match a
    case Wake => c.job == TurnAsleep
    case Announce => c.job == Announcing
    case LookAtBuffer => c.job == Draining
    case DrainWake => c.job == DrainAsleep
    case WriteChunk => c.job.Writing?
    case CloseBlock => c.job == Closing
  }

  function JobStep(c: Command, a: JobAction): Command
    requires JobEnabled(c, a)
  {
    match a
    case Wake => c.(job := AtQueue)
    case Announce => c.(job := if c.spawned then Draining else Closing)
    case LookAtBuffer =>
      if MustSleep(c.pty) then c.(job := DrainAsleep)
      else c.(job := Writing(c.pty.rawPending, c.pty.eof), pty := Taken(c.pty))
    case DrainWake => c.(job := Draining)
    case WriteChunk => c.(job := if c.job.last then Closing else Draining, printed := c.printed + c.job.chunk)
    case CloseBlock => c.(job := Releasing)
  }

  /** What the step of a job puts on the console. */
  function Emission(c: Command, a: JobAction): bytes
    requires JobEnabled(c, a)
  {
    match a
    case Announce => Banner(c.request, c.time)
    case WriteChunk => c.job.chunk
    case CloseBlock => [LF]
    case _ => []
  }

  datatype Action =
    | ByWorker(worker: WorkerAction)
    | ByReader(reader: ReaderAction)
    | ByTimer(timer: TimerAction)
    | ByWatcher(watcher: WatcherAction)
    | ByJob(job: JobAction)

  predicate Enabled(c: Command, a: Action) {
    match a
    case ByWorker(w) => WorkerEnabled(c, w)
    case ByReader(r) => ReaderEnabled(c, r)
    case ByTimer(t) => TimerEnabled(c, t)
    case ByWatcher(w) => WatcherEnabled(c, w)
    case ByJob(j) => JobEnabled(c, j)
  }

  function Act(c: Command, a: Action): Command
    requires Enabled(c, a)
  {
    match a
    case ByWorker(w) => WorkerStep(c, w)
    case ByReader(r) => ReaderStep(c, r)
    case ByTimer(t) => TimerStep(c, t)
    case ByWatcher(w) => WatcherStep(c, w)
    case ByJob(j) => JobStep(c, j)
  }

  function Shows(c: Command, a: Action): bytes
    requires Enabled(c, a)
  {
    match a case ByJob(j) => Emission(c, j) case _ => []
  }

  /** The action sends a signal to the child's process group. */
  predicate Signals(a: Action) {
    match a
    case ByTimer(t) => t == TimerTerm || t == TimerKill
    case ByWatcher(w) => w == WatcherTerm || w == WatcherKill
    case _ => false
  }

  /** The command's transcript record. */
  function RecordOf(c: Command): Record
    requires c.response.Some?
  {
    var r := c.response.value;
    Record(TranscriptEntry(c.request.whoami, c.request.dir, c.request.envs, c.request.clearEnv, c.request.exec,
                           c.request.timeout, r.exit, r.output, r.error, Some(c.time)),
           if c.spawned then c.pty.rawTotal else r.output)
  }

  // ---------- what each thread leaves alone ----------

  lemma TimerTouchesOnlyItself(c: Command, a: TimerAction)
    requires TimerEnabled(c, a)
    ensures var d := TimerStep(c, a); d == c.(timer := d.timer)
  {
  }

  lemma WatcherTouchesOnlyItself(c: Command, a: WatcherAction)
    requires WatcherEnabled(c, a)
    ensures var d := WatcherStep(c, a); d == c.(watcher := d.watcher)
  {
  }

  /** The reader may wake the drain. */
  lemma ReaderTouchesOnlyTheBuffer(c: Command, a: ReaderAction)
    requires ReaderEnabled(c, a)
    ensures var d := ReaderStep(c, a); d == c.(pty := d.pty, filter := d.filter, reader := d.reader, job := d.job)
    ensures ReaderStep(c, a).job == if c.job == DrainAsleep then Draining else c.job
  {
    hide Produced, EndState;
  }

  // ---------- what every step keeps ----------

  predicate Unspawned(w: Worker) {
    w == Spawning || w.QueueingFailure? || w.AnsweringFailure? || w == SubmittingFailure || w == Done || w == Abandoned
  }

  /** How far the worker of a spawned command has come. */
  function Rank(w: Worker): nat {
    match w
    case JoiningReader => 1
    case SettingFinished => 2
    case CancellingTimer => 3
    case JoiningTimer => 4
    case JoiningWatcher => 5
    case Abandoned => 6
    case Reaping => 7
    case ReadingErrno => 8
    case Answering => 9
    case Submitting => 10
    case Done => 11
    case _ => 0
  }

  predicate Quiet(t: Timer) {
    t == NoTimer || t.TimerGone?
  }

  ghost predicate UnspawnedOk(c: Command) {
    && Unspawned(c.worker)
    && c.reader == NoReader && c.timer == NoTimer && c.watcher == NoWatcher
    && !c.cancelSent && !c.finished && !c.reaped
  }

  /** Each join stands between its thread and the steps after it. */
  ghost predicate SpawnedOk(c: Command) {
    var n := Rank(c.worker);
    && (n > 0 || c.worker == QueueingJob)
    && c.reader != NoReader && c.watcher != NoWatcher
    && (c.timer == NoTimer <==> c.request.timeout == 0)
    && (n >= 2 ==> c.reader == ReaderGone)
    && (c.finished <==> n >= 3)
    && (c.cancelSent ==> n >= 4)
    && (c.worker == JoiningTimer ==> c.cancelSent && c.timer != NoTimer)
    && (n >= 5 ==> Quiet(c.timer))
    && (n >= 7 ==> c.watcher.Returned?)
    && (c.worker == Abandoned ==> c.watcher == Panicked)
    && (c.reaped <==> n >= 8)
  }

  ghost predicate ThreadsOk(c: Command) {
    && (if c.spawned then SpawnedOk(c) else UnspawnedOk(c))
    && (c.job == Unqueued <==> c.worker == Spawning || c.worker.QueueingFailure? || c.worker == QueueingJob)
  }

  predicate BeforeBanner(j: Job) {
    j == Unqueued || j == AtQueue || j == TurnAsleep || j == Announcing
  }

  predicate HasAnswer(w: Worker) {
    w == SubmittingFailure || w == Answering || w == Submitting || w == Done
  }

  /** On a silent host a job only takes its turn and gives it up. */
  predicate SilentJob(j: Job) {
    j == Unqueued || j == AtQueue || j == TurnAsleep || j == Releasing || j == Released
  }

  predicate AfterDrain(j: Job) {
    j == Closing || j == Releasing || j == Released
  }

  /** Nothing is lost or repeated between the PTY and the console. */
  ghost predicate Conserved(c: Command) {
    match c.job
    case Writing(chunk, last) =>
      c.printed + chunk + c.pty.rawPending == c.pty.rawTotal && (last ==> c.pty.eof && c.pty.rawPending == [])
    case _ => c.printed + c.pty.rawPending == c.pty.rawTotal
  }

  ghost predicate BufferOk(silent: bool, c: Command) {
    && c.pty.consoleOutput == !silent
    && c.pty.filteredTotal == Filtered(c.pty.rawTotal)
    && c.filter == EndState(Normal, c.pty.rawTotal)
    && (c.pty.eof <==> c.reader == ReaderGone)
    && (!c.spawned ==> c.pty == NewPty(silent))
    && (silent ==> c.pty.rawPending == [] && c.printed == [] && SilentJob(c.job))
    && (!silent ==> Conserved(c))
    && (BeforeBanner(c.job) ==> c.printed == [])
    && (c.job == DrainAsleep ==> MustSleep(c.pty))
    && (c.job == Draining || c.job == DrainAsleep || c.job.Writing? ==> c.spawned)
    && (!silent && AfterDrain(c.job) ==> c.pty.rawPending == [] && (c.spawned ==> c.pty.eof))
  }

  /** How a command ended, from what its threads came to. */
  predicate Truthful(c: Command, r: Response) {
    && (r.error == Some(NotFound) <==> c.errno)
    && (r.error == Some(TimedOut) <==> !c.errno && c.timer == TimerGone(true))
    && (r.error == Some(Aborted) <==> !c.errno && c.timer != TimerGone(true) && c.watcher == Returned(true))
    && (r.error == None <==> !c.errno && c.timer != TimerGone(true) && c.watcher != Returned(true))
    && (r.error == Some(NotFound) ==> r.exit == 127)
    && (r.error == Some(TimedOut) ==> r.exit == 124)
    && (r.error == Some(Aborted) || r.error == None ==> r.exit == c.status)
  }

  /** An answer tells the whole output and the truth about how the command ended. */
  ghost predicate AnswerOk(c: Command) {
    && (c.response.Some? <==> HasAnswer(c.worker))
    && (c.response.Some? && c.spawned ==>
          && c.reaped
          && c.response.value.output == Filtered(c.pty.rawTotal)
          && c.errno == ErrnoFound(c.request, c.start)
          && Truthful(c, c.response.value))
    && (c.response.Some? && !c.spawned ==>
          c.response.value.error == Some(SpawnFailed) && c.response.value.exit == 127)
  }

  ghost predicate Ok(silent: bool, c: Command) {
    ThreadsOk(c) && BufferOk(silent, c) && AnswerOk(c)
  }

  lemma NewCommandIsOk(connection: nat, request: Request, time: bytes, silent: bool)
    ensures Ok(silent, NewCommand(connection, request, time, silent))
  {
  }

  /** The worker's steps while no child has been spawned, the spawn itself included. */
  lemma UnspawnedWorkerKeepsThreads(c: Command, a: WorkerAction)
    requires ThreadsOk(c) && WorkerEnabled(c, a) && !c.spawned
    ensures ThreadsOk(WorkerStep(c, a))
  {
    hide Classified, ErrnoFound, Startable;
  }

  lemma SpawnedWorkerKeepsThreads(c: Command, a: WorkerAction)
    requires ThreadsOk(c) && WorkerEnabled(c, a) && c.spawned
    ensures ThreadsOk(WorkerStep(c, a))
  {
    hide Classified, ErrnoFound, Startable;
  }

  lemma WorkerKeepsThreads(c: Command, a: WorkerAction)
    requires ThreadsOk(c) && WorkerEnabled(c, a)
    ensures ThreadsOk(WorkerStep(c, a))
  {
    hide ThreadsOk, WorkerEnabled, WorkerStep;
    if c.spawned {
      SpawnedWorkerKeepsThreads(c, a);
    } else {
      UnspawnedWorkerKeepsThreads(c, a);
    }
  }

  /** The fields the buffer invariant and the console are about. */
  predicate BufferUntouched(c: Command, d: Command) {
    && d.pty == c.pty && d.filter == c.filter && d.reader == c.reader
    && d.spawned == c.spawned && d.job == c.job && d.printed == c.printed
    && d.connection == c.connection && d.request == c.request && d.time == c.time
  }

  predicate BeforeJoins(a: WorkerAction) {
    a.SpawnFails? || a.AnswerFailure? || a == JoinReader || a == SetFinished
  }

  lemma EarlyStepsTouchNoBuffer(c: Command, a: WorkerAction)
    requires WorkerEnabled(c, a) && BeforeJoins(a)
    ensures BufferUntouched(c, WorkerStep(c, a))
  {
    hide Classified, ErrnoFound, Startable;
  }

  lemma JoiningTouchesNoBuffer(c: Command, a: WorkerAction)
    requires WorkerEnabled(c, a) && (a == CancelTimer || a == JoinTimer || a == JoinWatcher)
    ensures BufferUntouched(c, WorkerStep(c, a))
  {
    hide Classified, ErrnoFound, Startable;
  }

  lemma AnsweringTouchesNoBuffer(c: Command, a: WorkerAction)
    requires WorkerEnabled(c, a) && (a.Reap? || a.ReadErrno? || a.Answer?)
    ensures BufferUntouched(c, WorkerStep(c, a))
  {
    hide Classified, ErrnoFound, Startable;
  }

  /** Apart from starting the threads and queueing the job, the worker leaves the buffer alone. */
  lemma WorkerTouchesNoBuffer(c: Command, a: WorkerAction)
    requires WorkerEnabled(c, a) && !a.SpawnSucceeds? && a != QueueJob
    ensures BufferUntouched(c, WorkerStep(c, a))
  {
    hide WorkerStep, WorkerEnabled, BufferUntouched;
    if BeforeJoins(a) {
      EarlyStepsTouchNoBuffer(c, a);
    } else if a.Reap? || a.ReadErrno? || a.Answer? {
      AnsweringTouchesNoBuffer(c, a);
    } else {
      JoiningTouchesNoBuffer(c, a);
    }
  }

  lemma StartingKeepsBuffer(silent: bool, c: Command, start: Start)
    requires ThreadsOk(c) && BufferOk(silent, c) && WorkerEnabled(c, SpawnSucceeds(start))
    ensures BufferOk(silent, WorkerStep(c, SpawnSucceeds(start)))
  {
    assert c.job == Unqueued && !c.spawned;
  }

  lemma QueueingKeepsBuffer(silent: bool, c: Command)
    requires ThreadsOk(c) && BufferOk(silent, c) && WorkerEnabled(c, QueueJob)
    ensures BufferOk(silent, WorkerStep(c, QueueJob))
  {
    assert c.job == Unqueued;
  }

  lemma WorkerKeepsBuffer(silent: bool, c: Command, a: WorkerAction)
    requires ThreadsOk(c) && BufferOk(silent, c) && WorkerEnabled(c, a)
    ensures BufferOk(silent, WorkerStep(c, a))
  {
    hide ThreadsOk, BufferOk, WorkerStep;
    if a.SpawnSucceeds? {
      StartingKeepsBuffer(silent, c, a.start);
    } else if a == QueueJob {
      QueueingKeepsBuffer(silent, c);
    } else {
      WorkerTouchesNoBuffer(c, a);
      SameBuffer(silent, c, WorkerStep(c, a));
    }
  }

  lemma SameBuffer(silent: bool, c: Command, d: Command)
    requires BufferOk(silent, c) && BufferUntouched(c, d)
    ensures BufferOk(silent, d)
  {
  }

  lemma AnswerIsMade(c: Command, a: WorkerAction)
    requires ThreadsOk(c) && AnswerOk(c) && WorkerEnabled(c, a)
    requires c.pty.filteredTotal == Filtered(c.pty.rawTotal)
    requires a.ReadErrno? || a.AnswerFailure?
    ensures AnswerOk(WorkerStep(c, a))
  {
    hide Filtered;
  }

  lemma AnswerIsKept(c: Command, a: WorkerAction)
    requires ThreadsOk(c) && AnswerOk(c) && WorkerEnabled(c, a)
    requires !a.ReadErrno? && !a.AnswerFailure?
    ensures AnswerOk(WorkerStep(c, a))
  {
    hide Filtered, Classified;
    assert c.response.Some? ==> a.Answer?;
  }

  lemma WorkerKeepsAnswer(silent: bool, c: Command, a: WorkerAction)
    requires Ok(silent, c) && WorkerEnabled(c, a)
    ensures AnswerOk(WorkerStep(c, a))
  {
    hide ThreadsOk, AnswerOk, WorkerStep, Conserved, Filtered;
    if a.ReadErrno? || a.AnswerFailure? {
      AnswerIsMade(c, a);
    } else {
      AnswerIsKept(c, a);
    }
  }

  lemma WorkerKeepsOk(silent: bool, c: Command, a: WorkerAction)
    requires Ok(silent, c) && WorkerEnabled(c, a)
    ensures Ok(silent, WorkerStep(c, a))
  {
    hide ThreadsOk, BufferOk, AnswerOk;
    WorkerKeepsThreads(c, a);
    WorkerKeepsBuffer(silent, c, a);
    WorkerKeepsAnswer(silent, c, a);
  }

  lemma ReaderKeepsThreads(c: Command, a: ReaderAction)
    requires ThreadsOk(c) && AnswerOk(c) && ReaderEnabled(c, a)
    ensures ThreadsOk(ReaderStep(c, a)) && AnswerOk(ReaderStep(c, a))
  {
    hide Produced, EndState, Filtered, Truthful;
  }

  lemma ChunkKeepsStream(c: Command, b: bytes)
    requires c.pty.filteredTotal == Filtered(c.pty.rawTotal) && c.filter == EndState(Normal, c.pty.rawTotal)
    ensures var p := Produced(c.pty, c.filter, b);
            p.filteredTotal == Filtered(p.rawTotal) && EndState(c.filter, b) == EndState(Normal, p.rawTotal)
  {
    OutputConcat(Normal, c.pty.rawTotal, b);
    EndStateConcat(Normal, c.pty.rawTotal, b);
  }

  lemma ChunkIsConserved(c: Command, a: ReaderAction)
    requires Conserved(c) && c.pty.consoleOutput && ReaderEnabled(c, a) && c.reader != ReaderGone
    requires c.job.Writing? && c.job.last ==> c.pty.eof
    requires !c.pty.eof
    ensures Conserved(ReaderStep(c, a))
  {
    if a.Chunk? {
      Assoc(c.printed, c.pty.rawPending, a.bytes);
      if c.job.Writing? {
        Assoc(c.printed + c.job.chunk, c.pty.rawPending, a.bytes);
      }
    }
  }

  lemma ReaderKeepsBuffer(silent: bool, c: Command, a: ReaderAction)
    requires ThreadsOk(c) && BufferOk(silent, c) && ReaderEnabled(c, a)
    ensures BufferOk(silent, ReaderStep(c, a))
  {
    hide Conserved, Filtered, EndState, Output;
    assert !c.pty.eof && c.spawned;
    if a.Chunk? {
      ChunkKeepsStream(c, a.bytes);
    }
    if !silent {
      LastChunkIsLast(c);
      ChunkIsConserved(c, a);
    }
  }

  lemma LastChunkIsLast(c: Command)
    requires Conserved(c)
    ensures c.job.Writing? && c.job.last ==> c.pty.eof
  {
  }

  lemma ReaderKeepsOk(silent: bool, c: Command, a: ReaderAction)
    requires Ok(silent, c) && ReaderEnabled(c, a)
    ensures Ok(silent, ReaderStep(c, a))
  {
    hide ThreadsOk, BufferOk, AnswerOk, ReaderStep;
    ReaderKeepsThreads(c, a);
    ReaderKeepsBuffer(silent, c, a);
  }

  lemma TimerKeepsOk(silent: bool, c: Command, a: TimerAction)
    requires Ok(silent, c) && TimerEnabled(c, a)
    ensures Ok(silent, TimerStep(c, a))
  {
  }

  lemma WatcherKeepsOk(silent: bool, c: Command, a: WatcherAction)
    requires Ok(silent, c) && WatcherEnabled(c, a)
    ensures Ok(silent, WatcherStep(c, a))
  {
  }

  lemma TakingKeepsBuffer(silent: bool, c: Command)
    requires BufferOk(silent, c) && c.job == Draining
    ensures BufferOk(silent, JobStep(c, LookAtBuffer))
  {
    hide Filtered, EndState;
    assert c.printed + c.pty.rawPending + [] == c.printed + c.pty.rawPending;
  }

  lemma WritingKeepsBuffer(silent: bool, c: Command)
    requires BufferOk(silent, c) && c.job.Writing?
    ensures BufferOk(silent, JobStep(c, WriteChunk))
  {
    hide Filtered, EndState;
  }

  lemma OthersKeepBuffer(silent: bool, c: Command, a: JobAction)
    requires BufferOk(silent, c) && JobEnabled(c, a) && a != LookAtBuffer && a != WriteChunk
    ensures BufferOk(silent, JobStep(c, a))
  {
    hide Filtered, EndState;
  }

  lemma JobKeepsBuffer(silent: bool, c: Command, a: JobAction)
    requires Ok(silent, c) && JobEnabled(c, a)
    ensures BufferOk(silent, JobStep(c, a))
  {
    hide BufferOk, ThreadsOk, AnswerOk, JobStep;
    match a
    case LookAtBuffer => TakingKeepsBuffer(silent, c);
    case WriteChunk => WritingKeepsBuffer(silent, c);
    case _ => OthersKeepBuffer(silent, c, a);
  }

  /** A console job touches only itself, what it printed and what is pending. */
  ghost predicate SameButJob(c: Command, d: Command) {
    d == c.(job := d.job, printed := d.printed, pty := c.pty.(rawPending := d.pty.rawPending))
  }

  lemma JobTouchesOnlyItself(c: Command, a: JobAction)
    requires JobEnabled(c, a)
    ensures SameButJob(c, JobStep(c, a)) && JobStep(c, a).job != Unqueued && c.job != Unqueued
  {
  }

  lemma JobChangeKeepsTheRest(c: Command, d: Command)
    requires ThreadsOk(c) && AnswerOk(c) && SameButJob(c, d) && c.job != Unqueued && d.job != Unqueued
    ensures ThreadsOk(d) && AnswerOk(d)
  {
  }

  lemma JobKeepsTheRest(c: Command, a: JobAction)
    requires ThreadsOk(c) && AnswerOk(c) && JobEnabled(c, a)
    ensures ThreadsOk(JobStep(c, a)) && AnswerOk(JobStep(c, a))
  {
    hide JobStep, JobEnabled, ThreadsOk, AnswerOk;
    JobTouchesOnlyItself(c, a);
    JobChangeKeepsTheRest(c, JobStep(c, a));
  }

  lemma JobKeepsOk(silent: bool, c: Command, a: JobAction)
    requires Ok(silent, c) && JobEnabled(c, a)
    ensures Ok(silent, JobStep(c, a))
  {
    hide BufferOk;
    JobKeepsBuffer(silent, c, a);
    JobKeepsTheRest(c, a);
  }

  lemma ActKeepsOk(silent: bool, c: Command, a: Action)
    requires Ok(silent, c) && Enabled(c, a)
    ensures Ok(silent, Act(c, a))
  {
    match a
    case ByWorker(w) => WorkerKeepsOk(silent, c, w);
    case ByReader(r) => ReaderKeepsOk(silent, c, r);
    case ByTimer(t) => TimerKeepsOk(silent, c, t);
    case ByWatcher(w) => WatcherKeepsOk(silent, c, w);
    case ByJob(j) => JobKeepsOk(silent, c, j);
  }

  /** Once the child has been reaped no thread of the command can signal it. */
  lemma NoSignalOnceReaped(silent: bool, c: Command, a: Action)
    requires Ok(silent, c) && c.reaped && Enabled(c, a)
    ensures !Signals(a)
  {
  }

  /** The buffered reader is back with the worker before the answer is written. */
  lemma ReaderIsBackBeforeTheAnswer(silent: bool, c: Command)
    requires Ok(silent, c) && c.spawned && (c.worker == Answering || c.worker == Submitting || c.worker == Done)
    ensures c.watcher.Returned? && Quiet(c.timer) && c.reader == ReaderGone
  {
  }
}
