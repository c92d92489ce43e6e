/** What the state of a command says about the steps that led to it, in every run of the host
    (src/host.rs). */
module Histories {
  import opened Bytes
  import opened OutputFilters
  import opened Protocol
  import opened PtyBuffers
  import opened TranscriptQueues
  import opened Commands
  import opened Hosts
  import opened HostTheorems
  import S = Sessions

  // ---------- steps of command i ----------

  predicate Expiry(s: Step, i: nat) {
    s == Do(i, ByTimer(Expire))
  }

  predicate Cancellation(s: Step, i: nat) {
    s == Do(i, ByWorker(CancelTimer))
  }

  /** The watcher read an abort line, or found the client gone. */
  predicate AbortHeard(s: Step, i: nat) {
    s == Do(i, ByWatcher(Hear(S.Got(S.Abort)))) || s == Do(i, ByWatcher(Hear(S.Disconnected)))
  }

  predicate WorkerStepOf(s: Step, i: nat) {
    s.Do? && s.number == i && s.action.ByWorker?
  }

  /** The child was forked, or `spawn` failed. */
  predicate Launches(s: Step, i: nat) {
    WorkerStepOf(s, i) && s.action.worker.SpawnSucceeds?
  }

  predicate Refuses(s: Step, i: nat) {
    WorkerStepOf(s, i) && s.action.worker.SpawnFails?
  }

  predicate Reaps(s: Step, i: nat) {
    WorkerStepOf(s, i) && s.action.worker.Reap?
  }

  predicate ReadsErrno(s: Step, i: nat) {
    WorkerStepOf(s, i) && s.action.worker.ReadErrno?
  }

  ghost predicate SomeExpiry(steps: seq<Step>, i: nat) {
    exists j :: 0 <= j < |steps| && Expiry(steps[j], i)
  }

  ghost predicate SomeAbort(steps: seq<Step>, i: nat) {
    exists j :: 0 <= j < |steps| && AbortHeard(steps[j], i)
  }

  ghost predicate SomeLaunch(steps: seq<Step>, i: nat) {
    exists j :: 0 <= j < |steps| && Launches(steps[j], i)
  }

  ghost predicate SomeRefusal(steps: seq<Step>, i: nat) {
    exists j :: 0 <= j < |steps| && Refuses(steps[j], i)
  }

  ghost predicate SomeReap(steps: seq<Step>, i: nat) {
    exists j :: 0 <= j < |steps| && Reaps(steps[j], i)
  }

  ghost predicate SomeRead(steps: seq<Step>, i: nat) {
    exists j :: 0 <= j < |steps| && ReadsErrno(steps[j], i)
  }

  /** The timer of command i fired, and before the worker cancelled it. */
  ghost predicate ExpiredFirst(steps: seq<Step>, i: nat) {
    exists j :: 0 <= j < |steps| && Expiry(steps[j], i) && forall k :: 0 <= k < |steps| && Cancellation(steps[k], i) ==> j < k
  }

  /** One more step. */
  lemma OneMore(steps: seq<Step>, s: Step, i: nat)
    ensures SomeExpiry(steps + [s], i) <==> SomeExpiry(steps, i) || Expiry(s, i)
    ensures SomeAbort(steps + [s], i) <==> SomeAbort(steps, i) || AbortHeard(s, i)
    ensures SomeLaunch(steps + [s], i) <==> SomeLaunch(steps, i) || Launches(s, i)
    ensures SomeRefusal(steps + [s], i) <==> SomeRefusal(steps, i) || Refuses(s, i)
    ensures SomeReap(steps + [s], i) <==> SomeReap(steps, i) || Reaps(s, i)
    ensures SomeRead(steps + [s], i) <==> SomeRead(steps, i) || ReadsErrno(s, i)
  {
    hide Expiry, AbortHeard, Launches, Refuses, Reaps, ReadsErrno;
    var more := steps + [s];
    assert more[|steps|] == s;
    forall j | 0 <= j < |steps| ensures more[j] == steps[j] {
    }
    if j :| 0 <= j < |steps| && Expiry(steps[j], i) { assert Expiry(more[j], i); }
    if j :| 0 <= j < |steps| && AbortHeard(steps[j], i) { assert AbortHeard(more[j], i); }
    if j :| 0 <= j < |steps| && Launches(steps[j], i) { assert Launches(more[j], i); }
    if j :| 0 <= j < |steps| && Refuses(steps[j], i) { assert Refuses(more[j], i); }
    if j :| 0 <= j < |steps| && Reaps(steps[j], i) { assert Reaps(more[j], i); }
    if j :| 0 <= j < |steps| && ReadsErrno(steps[j], i) { assert ReadsErrno(more[j], i); }
  }

  // ---------- the histories ----------

  predicate Fired(t: Timer) {
    t == Terminating || t == Killing || t == TimerGone(true)
  }

  /** The timer has fired exactly if it expired, and never expires after it was cancelled. */
  ghost predicate TimerHistory(c: Command, steps: seq<Step>, i: nat) {
    && (Fired(c.timer) <==> SomeExpiry(steps, i))
    && (forall k :: 0 <= k < |steps| && Cancellation(steps[k], i) ==> c.spawned && (c.timer == NoTimer || c.cancelSent))
    && (forall j, k :: 0 <= j < |steps| && 0 <= k < |steps| && Expiry(steps[j], i) && Cancellation(steps[k], i) ==> j < k)
  }

  predicate Honoured(w: Watcher) {
    w == Aborting || w == Finishing || w == Returned(true)
  }

  /** The watcher honours an abort exactly if it heard one. */
  ghost predicate WatcherHistory(c: Command, steps: seq<Step>, i: nat) {
    Honoured(c.watcher) <==> SomeAbort(steps, i)
  }

  predicate HasRead(w: Worker) {
    w == Answering || w == Submitting || w == Done
  }

  /** There is a child exactly if it was forked; how its start went, what its reap returned and
      how its errno was read are what the steps say. */
  ghost predicate ChildHistory(c: Command, steps: seq<Step>, i: nat) {
    && (c.spawned <==> SomeLaunch(steps, i))
    && (forall j :: 0 <= j < |steps| && Launches(steps[j], i) ==>
          c.start == steps[j].action.worker.start.(read := c.start.read))
    && (c.reaped <==> SomeReap(steps, i))
    && (forall j :: 0 <= j < |steps| && Reaps(steps[j], i) ==> c.status == steps[j].action.worker.status)
    && (c.spawned && HasRead(c.worker) <==> SomeRead(steps, i))
    && (forall j :: 0 <= j < |steps| && ReadsErrno(steps[j], i) ==> c.start.read == steps[j].action.worker.read)
  }

  /** The message of a failed spawn, while it is on its way and once it is the answer. */
  predicate Carries(c: Command, message: bytes) {
    && (c.worker.QueueingFailure? || c.worker.AnsweringFailure? ==> c.worker.message == message)
    && (c.response.Some? ==> c.response.value.output == message)
  }

  ghost predicate RefusalHistory(c: Command, steps: seq<Step>, i: nat) {
    && (!c.spawned && c.worker != Spawning <==> SomeRefusal(steps, i))
    && (forall j :: 0 <= j < |steps| && Refuses(steps[j], i) ==> Carries(c, steps[j].action.worker.message))
  }

  ghost predicate CommandHistory(c: Command, steps: seq<Step>, i: nat) {
    TimerHistory(c, steps, i) && WatcherHistory(c, steps, i) && ChildHistory(c, steps, i) && RefusalHistory(c, steps, i)
  }

  // ---------- a step of the command ----------

  /** How a step of the command moves the timer. */
  predicate TimerMoved(c: Command, a: Action, d: Command) {
    && (Fired(d.timer) <==> Fired(c.timer) || a == ByTimer(Expire))
    && (c.spawned && (c.timer == NoTimer || c.cancelSent) ==>
          d.spawned && (d.timer == NoTimer || d.cancelSent) && a != ByTimer(Expire))
    && (a == ByWorker(CancelTimer) ==> d.spawned && (d.timer == NoTimer || d.cancelSent))
  }

  lemma TimerMoves(silent: bool, c: Command, a: Action)
    requires Ok(silent, c) && Enabled(c, a)
    ensures TimerMoved(c, a, Act(c, a))
  {
    hide BufferOk, AnswerOk, WorkerStep, WorkerEnabled, ReaderStep, WatcherStep, JobStep, JobEnabled;
    match a
    case ByWorker(w) => WorkerMovesTimer(c, w);
    case ByReader(r) => ReaderTouchesOnlyTheBuffer(c, r);
    case ByTimer(_) =>
    case ByWatcher(w) => WatcherTouchesOnlyItself(c, w);
    case ByJob(j) => JobTouchesOnlyItself(c, j);
  }

  lemma WorkerMovesTimer(c: Command, a: WorkerAction)
    requires ThreadsOk(c) && WorkerEnabled(c, a)
    ensures var d := WorkerStep(c, a);
            && (Fired(d.timer) <==> Fired(c.timer))
            && (c.spawned ==> d.spawned && d.timer == c.timer && (c.cancelSent ==> d.cancelSent))
            && (a == CancelTimer ==> d.spawned && (d.timer == NoTimer || d.cancelSent))
  {
    hide Classified, ErrnoFound, Startable;
  }

  lemma MovedKeepsTimerHistory(c: Command, d: Command, steps: seq<Step>, i: nat, a: Action)
    requires TimerHistory(c, steps, i) && TimerMoved(c, a, d)
    ensures TimerHistory(d, steps + [Do(i, a)], i)
  {
    OneMore(steps, Do(i, a), i);
    hide Fired;
    var more := steps + [Do(i, a)];
    assert more[|steps|] == Do(i, a);
    assert forall j :: 0 <= j < |steps| ==> more[j] == steps[j];
    assert !SomeExpiry(steps, i) ==> forall j :: 0 <= j < |steps| ==> !Expiry(steps[j], i);
    hide SomeExpiry;
  }

  lemma ActKeepsTimerHistory(silent: bool, c: Command, steps: seq<Step>, i: nat, a: Action)
    requires Ok(silent, c) && TimerHistory(c, steps, i) && Enabled(c, a)
    ensures TimerHistory(Act(c, a), steps + [Do(i, a)], i)
  {
    hide Ok, Act, Enabled, TimerHistory, TimerMoved;
    TimerMoves(silent, c, a);
    MovedKeepsTimerHistory(c, Act(c, a), steps, i, a);
  }

  lemma WatcherMoves(silent: bool, c: Command, a: Action)
    requires Ok(silent, c) && Enabled(c, a)
    ensures Honoured(Act(c, a).watcher) <==> Honoured(c.watcher) || AbortHeard(Do(0, a), 0)
  {
    hide BufferOk, AnswerOk, WorkerStep, WorkerEnabled, ReaderStep, TimerStep, JobStep, JobEnabled;
    match a
    case ByWorker(w) => WorkerMovesNoWatcher(c, w);
    case ByReader(r) => ReaderTouchesOnlyTheBuffer(c, r);
    case ByTimer(t) => TimerTouchesOnlyItself(c, t);
    case ByWatcher(_) =>
    case ByJob(j) => JobTouchesOnlyItself(c, j);
  }

  lemma WorkerMovesNoWatcher(c: Command, a: WorkerAction)
    requires ThreadsOk(c) && WorkerEnabled(c, a)
    ensures Honoured(WorkerStep(c, a).watcher) <==> Honoured(c.watcher)
  {
    hide Classified, ErrnoFound, Startable;
  }

  lemma ActKeepsWatcherHistory(silent: bool, c: Command, steps: seq<Step>, i: nat, a: Action)
    requires Ok(silent, c) && WatcherHistory(c, steps, i) && Enabled(c, a)
    ensures WatcherHistory(Act(c, a), steps + [Do(i, a)], i)
  {
    WatcherMoves(silent, c, a);
    OneMore(steps, Do(i, a), i);
    hide Ok, Act, Enabled, Honoured, SomeAbort;
  }

  /** The fields only the worker writes. */
  predicate SameWork(c: Command, d: Command) {
    && d.worker == c.worker && d.spawned == c.spawned && d.start == c.start
    && d.reaped == c.reaped && d.status == c.status && d.response == c.response
  }

  lemma OthersDoNoWork(c: Command, a: Action)
    requires Enabled(c, a) && !a.ByWorker?
    ensures SameWork(c, Act(c, a))
  {
    hide JobStep, JobEnabled, ReaderStep, TimerStep, WatcherStep;
    match a
    case ByReader(r) => ReaderTouchesOnlyTheBuffer(c, r);
    case ByTimer(t) => TimerTouchesOnlyItself(c, t);
    case ByWatcher(w) => WatcherTouchesOnlyItself(c, w);
    case ByJob(j) => JobTouchesOnlyItself(c, j);
    case _ =>
  }

  predicate ChildMoved(c: Command, a: WorkerAction, d: Command) {
    && (d.spawned <==> c.spawned || a.SpawnSucceeds?)
    && (a.SpawnSucceeds? ==> d.start == a.start && !c.spawned)
    && (a.ReadErrno? ==> d.start == c.start.(read := a.read) && !(c.spawned && HasRead(c.worker)) && d.spawned && HasRead(d.worker))
    && (!a.SpawnSucceeds? && !a.ReadErrno? ==> d.start == c.start && (d.spawned && HasRead(d.worker) <==> c.spawned && HasRead(c.worker)))
    && (a.SpawnSucceeds? ==> !HasRead(c.worker) && !HasRead(d.worker))
    && (d.reaped <==> c.reaped || a.Reap?)
    && (a.Reap? ==> d.status == a.status && !c.reaped)
    && (!a.Reap? ==> d.status == c.status)
  }

  lemma WorkerMovesChild(c: Command, a: WorkerAction)
    requires ThreadsOk(c) && WorkerEnabled(c, a)
    ensures ChildMoved(c, a, WorkerStep(c, a))
  {
    hide Classified, ErrnoFound, Startable;
  }

  lemma ActKeepsChildHistory(silent: bool, c: Command, steps: seq<Step>, i: nat, a: Action)
    requires ThreadsOk(c) && ChildHistory(c, steps, i) && Enabled(c, a)
    ensures ChildHistory(Act(c, a), steps + [Do(i, a)], i)
  {
    OneMore(steps, Do(i, a), i);
    if a.ByWorker? {
      WorkerMovesChild(c, a.worker);
    } else {
      OthersDoNoWork(c, a);
    }
    hide ThreadsOk, WorkerStep, ReaderStep, TimerStep, WatcherStep, JobStep, Enabled, HasRead;
    MovedKeepsChildHistory(c, Act(c, a), steps, i, a);
  }

  lemma MovedKeepsChildHistory(c: Command, d: Command, steps: seq<Step>, i: nat, a: Action)
    requires ChildHistory(c, steps, i)
    requires if a.ByWorker? then ChildMoved(c, a.worker, d) else SameWork(c, d)
    ensures ChildHistory(d, steps + [Do(i, a)], i)
  {
    OneMore(steps, Do(i, a), i);
    var more := steps + [Do(i, a)];
    assert more[|steps|] == Do(i, a);
    assert forall j :: 0 <= j < |steps| ==> more[j] == steps[j];
    assert !SomeLaunch(steps, i) ==> forall j :: 0 <= j < |steps| ==> !Launches(steps[j], i);
    assert !SomeReap(steps, i) ==> forall j :: 0 <= j < |steps| ==> !Reaps(steps[j], i);
    assert !SomeRead(steps, i) ==> forall j :: 0 <= j < |steps| ==> !ReadsErrno(steps[j], i);
    hide SomeLaunch, SomeReap, SomeRead, HasRead;
  }

  ghost predicate RefusalMoved(c: Command, a: WorkerAction, d: Command) {
    && (a.SpawnFails? ==> !c.spawned && c.worker == Spawning && Carries(d, a.message))
    && (!d.spawned && d.worker != Spawning <==> (!c.spawned && c.worker != Spawning) || a.SpawnFails?)
    && (!c.spawned && c.worker != Spawning ==> forall m :: Carries(c, m) ==> Carries(d, m))
  }

  lemma WorkerMovesRefusal(c: Command, a: WorkerAction)
    requires ThreadsOk(c) && AnswerOk(c) && WorkerEnabled(c, a)
    ensures RefusalMoved(c, a, WorkerStep(c, a))
  {
    hide Classified, ErrnoFound, Startable, Truthful, Filtered;
  }

  lemma MovedKeepsRefusalHistory(c: Command, d: Command, steps: seq<Step>, i: nat, a: Action)
    requires RefusalHistory(c, steps, i)
    requires if a.ByWorker? then RefusalMoved(c, a.worker, d) else SameWork(c, d)
    ensures RefusalHistory(d, steps + [Do(i, a)], i)
  {
    OneMore(steps, Do(i, a), i);
    var more := steps + [Do(i, a)];
    assert more[|steps|] == Do(i, a);
    assert forall j :: 0 <= j < |steps| ==> more[j] == steps[j];
    assert !SomeRefusal(steps, i) ==> forall j :: 0 <= j < |steps| ==> !Refuses(steps[j], i);
    hide SomeRefusal;
    if a.ByWorker? {
      hide Carries;
    }
  }

  lemma ActKeepsRefusalHistory(silent: bool, c: Command, steps: seq<Step>, i: nat, a: Action)
    requires ThreadsOk(c) && AnswerOk(c) && RefusalHistory(c, steps, i) && Enabled(c, a)
    ensures RefusalHistory(Act(c, a), steps + [Do(i, a)], i)
  {
    if a.ByWorker? {
      WorkerMovesRefusal(c, a.worker);
    } else {
      OthersDoNoWork(c, a);
    }
    hide ThreadsOk, AnswerOk, WorkerStep, ReaderStep, TimerStep, WatcherStep, JobStep, Enabled, RefusalHistory, RefusalMoved;
    MovedKeepsRefusalHistory(c, Act(c, a), steps, i, a);
  }

  lemma ActKeepsHistory(silent: bool, c: Command, steps: seq<Step>, i: nat, a: Action)
    requires Ok(silent, c) && CommandHistory(c, steps, i) && Enabled(c, a)
    ensures CommandHistory(Act(c, a), steps + [Do(i, a)], i)
  {
    hide ThreadsOk, BufferOk, AnswerOk, Act, Enabled, TimerHistory, WatcherHistory, ChildHistory, RefusalHistory;
    ActKeepsTimerHistory(silent, c, steps, i, a);
    ActKeepsWatcherHistory(silent, c, steps, i, a);
    ActKeepsChildHistory(silent, c, steps, i, a);
    ActKeepsRefusalHistory(silent, c, steps, i, a);
  }

  // ---------- any other step ----------

  predicate ActsOn(s: Step, i: nat) {
    s.Do? && s.number == i
  }

  /** The command that is not acted on keeps what the histories are about; it may be submitted. */
  predicate Untouched(c: Command, d: Command) {
    && d.timer == c.timer && d.cancelSent == c.cancelSent && d.watcher == c.watcher
    && d.spawned == c.spawned && d.start == c.start && d.reaped == c.reaped && d.status == c.status
    && d.response == c.response
    && (d.worker == c.worker
        || (d.worker == Done && ((c.worker == Submitting && c.spawned) || (c.worker == SubmittingFailure && !c.spawned))))
  }

  lemma OthersKeepTimerHistory(c: Command, d: Command, steps: seq<Step>, i: nat, s: Step)
    requires TimerHistory(c, steps, i) && WatcherHistory(c, steps, i) && Untouched(c, d) && !ActsOn(s, i)
    ensures TimerHistory(d, steps + [s], i) && WatcherHistory(d, steps + [s], i)
  {
    OneMore(steps, s, i);
    assert !Expiry(s, i) && !Cancellation(s, i) && !AbortHeard(s, i);
    hide SomeExpiry, SomeAbort, Fired, Honoured;
    var more := steps + [s];
    assert more[|steps|] == s;
    assert forall j :: 0 <= j < |steps| ==> more[j] == steps[j];
  }

  lemma OthersKeepChildHistory(c: Command, d: Command, steps: seq<Step>, i: nat, s: Step)
    requires ChildHistory(c, steps, i) && RefusalHistory(c, steps, i) && Untouched(c, d) && !ActsOn(s, i)
    ensures ChildHistory(d, steps + [s], i) && RefusalHistory(d, steps + [s], i)
  {
    OneMore(steps, s, i);
    assert !WorkerStepOf(s, i);
    hide SomeLaunch, SomeRefusal, SomeReap, SomeRead;
    var more := steps + [s];
    assert more[|steps|] == s;
    assert forall j :: 0 <= j < |steps| ==> more[j] == steps[j];
  }

  lemma OthersKeepHistory(c: Command, d: Command, steps: seq<Step>, i: nat, s: Step)
    requires CommandHistory(c, steps, i) && Untouched(c, d) && !ActsOn(s, i)
    ensures CommandHistory(d, steps + [s], i)
  {
    hide TimerHistory, WatcherHistory, ChildHistory, RefusalHistory, Untouched;
    OthersKeepTimerHistory(c, d, steps, i, s);
    OthersKeepChildHistory(c, d, steps, i, s);
  }

  lemma SubmitLeaves(silent: bool, c: Command)
    requires Ok(silent, c) && CanSubmit(c)
    ensures Untouched(c, c.(worker := Done))
  {
    hide BufferOk, AnswerOk;
  }

  /** Apart from its submission, what happens beside a command touches its job at most. */
  lemma OnlyItsJob(h: Host, s: Step, i: nat)
    requires Linked(h.transcript) && StepEnabled(h, s) && i < |h.commands| && !ActsOn(s, i) && s != Submit(i)
    ensures i < |Apply(h, s).commands|
    ensures var d := Apply(h, s).commands[i]; d == h.commands[i].(job := d.job)
  {
    hide Act, Enabled, Shows, Logged, RecordOf, Submitted, Subscribed, Unsubscribed, HungUp, Linked, Idle, CanSubmit, NewCommand;
  }

  lemma OnlyItsSubmission(h: Host, i: nat)
    requires Linked(h.transcript) && StepEnabled(h, Submit(i))
    ensures i < |Apply(h, Submit(i)).commands|
    ensures Apply(h, Submit(i)).commands[i] == h.commands[i].(worker := Done) && CanSubmit(h.commands[i])
  {
    hide RecordOf, Submitted, Linked, CanSubmit;
  }

  lemma StepLeaves(h: Host, s: Step, i: nat)
    requires Inv(h) && StepEnabled(h, s) && i < |h.commands| && !ActsOn(s, i)
    ensures Linked(h.transcript) && i < |Apply(h, s).commands| && Untouched(h.commands[i], Apply(h, s).commands[i])
  {
    InvIsLinked(h);
    assert Ok(h.silent, h.commands[i]) by {
      hide TurnsOk, ConsoleOk, JournalOk, LogOk, Ok;
    }
    hide Inv, Ok, Apply, StepEnabled, CanSubmit;
    if s == Submit(i) {
      OnlyItsSubmission(h, i);
      SubmitLeaves(h.silent, h.commands[i]);
    } else {
      OnlyItsJob(h, s, i);
    }
  }

  lemma NotYetActedOn(h: Host, s: Step, i: nat)
    requires StepEnabled(h, s) && |h.commands| <= i
    ensures !ActsOn(s, i)
  {
    hide Enabled, Idle;
  }

  lemma ArrivalsAreNew(h: Host, s: Step, i: nat)
    requires Linked(h.transcript) && StepEnabled(h, s) && |h.commands| <= i < |Apply(h, s).commands|
    ensures s.Arrive? && Apply(h, s).commands[i] == NewCommand(s.connection, s.request, s.time, h.silent)
  {
    hide Act, Enabled, Shows, Logged, RecordOf, Submitted, Subscribed, Unsubscribed, HungUp, Linked, Idle, NewCommand;
  }

  ghost predicate History(h: Host, steps: seq<Step>, i: nat) {
    if i < |h.commands| then CommandHistory(h.commands[i], steps, i)
    else forall j :: 0 <= j < |steps| ==> !ActsOn(steps[j], i)
  }

  lemma NewCommandHistory(connection: nat, request: Request, time: bytes, silent: bool, steps: seq<Step>, i: nat)
    requires forall j :: 0 <= j < |steps| ==> !ActsOn(steps[j], i)
    ensures CommandHistory(NewCommand(connection, request, time, silent), steps, i)
  {
  }

  lemma OwnStepKeepsHistory(h: Host, steps: seq<Step>, i: nat, a: Action)
    requires Inv(h) && StepEnabled(h, Do(i, a)) && CommandHistory(h.commands[i], steps, i)
    ensures History(Apply(h, Do(i, a)), steps + [Do(i, a)], i)
  {
    hide Ok, Act, Enabled, CommandHistory, Shows, Logged, TurnsOk, ConsoleOk, JournalOk, LogOk;
    assert Ok(h.silent, h.commands[i]);
    ActKeepsHistory(h.silent, h.commands[i], steps, i, a);
  }

  lemma OtherStepKeepsHistory(h: Host, steps: seq<Step>, s: Step, i: nat)
    requires Inv(h) && StepEnabled(h, s) && History(h, steps, i) && i < |h.commands| && !ActsOn(s, i)
    ensures Linked(h.transcript) && History(Apply(h, s), steps + [s], i)
  {
    hide Inv, Apply, StepEnabled, CommandHistory, Untouched;
    StepLeaves(h, s, i);
    OthersKeepHistory(h.commands[i], Apply(h, s).commands[i], steps, i, s);
  }

  lemma EarlyStepKeepsHistory(h: Host, steps: seq<Step>, s: Step, i: nat)
    requires Linked(h.transcript) && StepEnabled(h, s) && History(h, steps, i) && i >= |h.commands|
    ensures History(Apply(h, s), steps + [s], i)
  {
    NotYetActedOn(h, s, i);
    hide Apply, StepEnabled, Linked, CommandHistory;
    assert forall j :: 0 <= j < |steps + [s]| ==> !ActsOn((steps + [s])[j], i);
    if i < |Apply(h, s).commands| {
      ArrivalsAreNew(h, s, i);
      NewCommandHistory(s.connection, s.request, s.time, h.silent, steps + [s], i);
    }
  }

  lemma StepKeepsHistory(h: Host, steps: seq<Step>, s: Step, i: nat)
    requires Inv(h) && StepEnabled(h, s) && History(h, steps, i)
    ensures Linked(h.transcript) && History(Apply(h, s), steps + [s], i)
  {
    InvIsLinked(h);
    hide Inv, Apply, Enabled, CommandHistory, Linked;
    if i >= |h.commands| {
      EarlyStepKeepsHistory(h, steps, s, i);
    } else if ActsOn(s, i) {
      OwnStepKeepsHistory(h, steps, i, s.action);
    } else {
      OtherStepKeepsHistory(h, steps, s, i);
    }
  }

  /** In every run each command's state tells truly of the steps taken. */
  lemma {:induction false} RunKeepsHistory(silent: bool, steps: seq<Step>, i: nat)
    ensures var r := Run(silent, steps); r.Some? ==> History(r.value, steps, i)
  {
    hide Inv, Apply, StepEnabled, CommandHistory;
    if steps != [] {
      var before, last := steps[..|steps| - 1], steps[|steps| - 1];
      RunKeepsHistory(silent, before, i);
      RunKeepsInv(silent, before);
      assert steps == before + [last];
      var r := Run(silent, before);
      if r.Some? && StepEnabled(r.value, last) {
        StepKeepsHistory(r.value, before, last, i);
      }
    }
  }

  // ---------- the requests ----------

  /** The requests in the order in which they came. */
  function Arrivals(steps: seq<Step>): seq<Step> {
    if steps == [] then []
    else Arrivals(steps[..|steps| - 1]) + if steps[|steps| - 1].Arrive? then [steps[|steps| - 1]] else []
  }

  predicate CameAs(c: Command, s: Step) {
    s.Arrive? && c.connection == s.connection && c.request == s.request && c.time == s.time
  }

  lemma StepKeepsRequests(h: Host, s: Step)
    requires Inv(h) && StepEnabled(h, s)
    ensures Linked(h.transcript)
    ensures var g := Apply(h, s);
            && |g.commands| == |h.commands| + (if s.Arrive? then 1 else 0)
            && (forall k :: 0 <= k < |h.commands| ==>
                  && g.commands[k].connection == h.commands[k].connection
                  && g.commands[k].request == h.commands[k].request && g.commands[k].time == h.commands[k].time)
            && (s.Arrive? ==> CameAs(g.commands[|h.commands|], s))
  {
    InvIsLinked(h);
    hide Inv, Apply, StepEnabled, CameAs, Linked;
    CommandsAreCounted(h, s);
    forall k | 0 <= k < |h.commands|
      ensures var c, d := h.commands[k], Apply(h, s).commands[k];
              d.connection == c.connection && d.request == c.request && d.time == c.time
    {
      if ActsOn(s, k) {
        OwnStep(h, k, s.action);
      } else if s == Submit(k) {
        OnlyItsSubmission(h, k);
      } else {
        OnlyItsJob(h, s, k);
      }
    }
    if s.Arrive? {
      ArrivalsAreNew(h, s, |h.commands|);
      NewCommandCameAs(s, h.silent);
    }
  }

  lemma CommandsAreCounted(h: Host, s: Step)
    requires Linked(h.transcript) && StepEnabled(h, s)
    ensures |Apply(h, s).commands| == |h.commands| + if s.Arrive? then 1 else 0
  {
    hide Act, Enabled, Shows, Logged, RecordOf, Submitted, Subscribed, Unsubscribed, HungUp, Linked, Idle, CanSubmit;
  }

  lemma NewCommandCameAs(s: Step, silent: bool)
    requires s.Arrive?
    ensures CameAs(NewCommand(s.connection, s.request, s.time, silent), s)
  {
  }

  lemma OwnStep(h: Host, i: nat, a: Action)
    requires Inv(h) && StepEnabled(h, Do(i, a))
    ensures Linked(h.transcript)
    ensures var c, d := h.commands[i], Apply(h, Do(i, a)).commands[i];
            && d.connection == c.connection && d.request == c.request && d.time == c.time
            && (c.worker == Done ==> d.worker == Done)
  {
    InvIsLinked(h);
    InvIsOk(h);
    hide Inv;
    assert Ok(h.silent, h.commands[i]);
    OkIsThreadsOk(h.silent, h.commands[i]);
    hide Ok, ThreadsOk, Act, Enabled, Shows, Logged, Linked;
    ActKeepsRequest(h.commands[i], a);
    StepKeepsRecord(h.silent, h.commands[i], a);
  }

  lemma ActKeepsRequest(c: Command, a: Action)
    requires ThreadsOk(c) && Enabled(c, a)
    ensures var d := Act(c, a); d.connection == c.connection && d.request == c.request && d.time == c.time
  {
    hide ThreadsOk, WorkerStep, WorkerEnabled, JobStep, JobEnabled, ReaderStep, TimerStep, WatcherStep;
    match a
    case ByWorker(w) => WorkerShowsNothing(c, w);
    case ByReader(r) => ReaderTouchesOnlyTheBuffer(c, r);
    case ByTimer(t) => TimerTouchesOnlyItself(c, t);
    case ByWatcher(w) => WatcherTouchesOnlyItself(c, w);
    case ByJob(j) => JobTouchesOnlyItself(c, j);
  }

  /** Sequence numbers are the order of arrival: in every run command k is the k-th request that
      came, with its time, on its connection. */
  lemma {:induction false} CommandsAreTheArrivals(silent: bool, steps: seq<Step>)
    ensures var r := Run(silent, steps);
            r.Some? ==>
              && |r.value.commands| == |Arrivals(steps)|
              && forall k :: 0 <= k < |r.value.commands| ==> CameAs(r.value.commands[k], Arrivals(steps)[k])
  {
    hide Inv, Apply, StepEnabled;
    if steps != [] {
      var before, last := steps[..|steps| - 1], steps[|steps| - 1];
      CommandsAreTheArrivals(silent, before);
      RunKeepsInv(silent, before);
      var r := Run(silent, before);
      if r.Some? && StepEnabled(r.value, last) {
        StepKeepsRequests(r.value, last);
      }
    }
  }

  // ---------- one connection ----------

  /** Earlier commands of a connection are done when a later one has come. */
  ghost predicate OneByOne(h: Host) {
    forall i, j :: 0 <= i < j < |h.commands| && h.commands[i].connection == h.commands[j].connection ==> h.commands[i].worker == Done
  }

  lemma ArrivalFindsDone(h: Host, s: Step)
    requires StepEnabled(h, s) && s.Arrive?
    ensures forall i :: 0 <= i < |h.commands| && h.commands[i].connection == s.connection ==> h.commands[i].worker == Done
  {
  }

  /** A connection carries any number of commands: when the ones before are done it can take the
      next, and only then. */
  lemma NextCommandCanCome(h: Host, connection: nat, request: Request, time: bytes)
    requires request.exec != []
    ensures StepEnabled(h, Arrive(connection, request, time))
       <==> forall i :: 0 <= i < |h.commands| && h.commands[i].connection == connection ==> h.commands[i].worker == Done
  {
  }

  lemma StepKeepsDone(h: Host, s: Step, i: nat)
    requires Inv(h) && StepEnabled(h, s) && i < |h.commands|
    ensures Linked(h.transcript) && i < |Apply(h, s).commands|
    ensures h.commands[i].worker == Done ==> Apply(h, s).commands[i].worker == Done
  {
    InvIsLinked(h);
    hide Inv, Apply, StepEnabled, Linked;
    CommandsAreCounted(h, s);
    if ActsOn(s, i) {
      OwnStep(h, i, s.action);
    } else {
      StepLeaves(h, s, i);
    }
  }

  lemma StepKeepsOneByOne(h: Host, s: Step)
    requires Inv(h) && StepEnabled(h, s) && OneByOne(h)
    ensures Linked(h.transcript) && OneByOne(Apply(h, s))
  {
    InvIsLinked(h);
    hide Inv, Apply, StepEnabled, Linked;
    StepKeepsRequests(h, s);
    forall i | 0 <= i < |h.commands| && h.commands[i].worker == Done ensures Apply(h, s).commands[i].worker == Done {
      StepKeepsDone(h, s, i);
    }
    if s.Arrive? {
      ArrivalFindsDone(h, s);
    }
  }

  /** A connection runs its commands one by one: in every run, when a later command of the same
      connection has come, the earlier ones have been answered and submitted. */
  lemma {:induction false} CommandsOfAConnectionTakeTurns(silent: bool, steps: seq<Step>)
    ensures var r := Run(silent, steps); r.Some? ==> OneByOne(r.value)
  {
    hide Inv, Apply, StepEnabled;
    if steps != [] {
      var before, last := steps[..|steps| - 1], steps[|steps| - 1];
      CommandsOfAConnectionTakeTurns(silent, before);
      RunKeepsInv(silent, before);
      var r := Run(silent, before);
      if r.Some? && StepEnabled(r.value, last) {
        StepKeepsOneByOne(r.value, last);
      }
    }
  }

  // ---------- the signals ----------

  /** What a step does to the child, spelled out. */
  function EventsOf(s: Step): seq<Event> {
    match s
    case Do(i, ByTimer(TimerTerm)) => [Signalled(i)]
    case Do(i, ByTimer(TimerKill)) => [Signalled(i)]
    case Do(i, ByWatcher(WatcherTerm)) => [Signalled(i)]
    case Do(i, ByWatcher(WatcherKill)) => [Signalled(i)]
    case Do(i, ByWorker(Reap(_))) => [Reaped(i)]
    case _ => []
  }

  function AllEvents(steps: seq<Step>): seq<Event> {
    if steps == [] then [] else AllEvents(steps[..|steps| - 1]) + EventsOf(steps[|steps| - 1])
  }

  lemma StepLogs(h: Host, s: Step)
    requires Linked(h.transcript) && StepEnabled(h, s)
    ensures Apply(h, s).log == h.log + EventsOf(s)
  {
    hide Act, Enabled, Shows, RecordOf, Submitted, Subscribed, Unsubscribed, HungUp, Linked, Idle, CanSubmit, NewCommand;
    assert h.log + [] == h.log;
  }

  /** The log of every run is its signals and reaps, in order. */
  lemma {:induction false} LogIsExact(silent: bool, steps: seq<Step>)
    ensures var r := Run(silent, steps); r.Some? ==> r.value.log == AllEvents(steps)
  {
    hide Apply, StepEnabled;
    if steps != [] {
      var before, last := steps[..|steps| - 1], steps[|steps| - 1];
      LogIsExact(silent, before);
      var r := Run(silent, before);
      if r.Some? && StepEnabled(r.value, last) {
        StepLogs(r.value, last);
      }
    }
  }

  /** Command i took these actions, in this order, among others. */
  ghost predicate TookInOrder(steps: seq<Step>, i: nat, actions: seq<Action>)
    decreases |actions|
  {
    actions == [] ||
    exists j :: 0 <= j < |steps| && steps[j] == Do(i, actions[|actions| - 1]) && TookInOrder(steps[..j], i, actions[..|actions| - 1])
  }

  lemma StillTaken(steps: seq<Step>, s: Step, i: nat, actions: seq<Action>)
    requires TookInOrder(steps, i, actions)
    ensures TookInOrder(steps + [s], i, actions)
  {
    if actions != [] {
      var j :| 0 <= j < |steps| && steps[j] == Do(i, actions[|actions| - 1]) && TookInOrder(steps[..j], i, actions[..|actions| - 1]);
      assert (steps + [s])[..j] == steps[..j] && (steps + [s])[j] == steps[j];
    }
  }

  lemma NowTaken(steps: seq<Step>, i: nat, actions: seq<Action>, a: Action)
    requires TookInOrder(steps, i, actions)
    ensures TookInOrder(steps + [Do(i, a)], i, actions + [a])
  {
    var more := steps + [Do(i, a)];
    assert more[..|steps|] == steps && more[|steps|] == Do(i, a);
    assert (actions + [a])[..|actions|] == actions;
  }

  const EXPIRED: seq<Action> := [ByTimer(Expire)]
  const TERMINATED: seq<Action> := EXPIRED + [ByTimer(TimerTerm)]
  const KILLED: seq<Action> := TERMINATED + [ByTimer(TimerKill)]
  const ABORT_LINE: seq<Action> := [ByWatcher(Hear(S.Got(S.Abort)))]
  const CLIENT_LOST: seq<Action> := [ByWatcher(Hear(S.Disconnected))]
  const WATCHER_TERM: seq<Action> := [ByWatcher(WatcherTerm)]
  const WATCHER_KILL: seq<Action> := [ByWatcher(WatcherKill)]

  ghost predicate HeardThen(steps: seq<Step>, i: nat, actions: seq<Action>) {
    TookInOrder(steps, i, ABORT_LINE + actions) || TookInOrder(steps, i, CLIENT_LOST + actions)
  }

  /** A thread that kills has sent the signals it has come past. */
  ghost predicate SignalHistory(c: Command, steps: seq<Step>, i: nat) {
    && (c.timer == Terminating ==> TookInOrder(steps, i, EXPIRED))
    && (c.timer == Killing ==> TookInOrder(steps, i, TERMINATED))
    && (c.timer == TimerGone(true) ==> TookInOrder(steps, i, KILLED))
    && (c.watcher == Aborting ==> HeardThen(steps, i, []))
    && (c.watcher == Finishing ==> HeardThen(steps, i, WATCHER_TERM))
    && (c.watcher == Returned(true) ==> HeardThen(steps, i, WATCHER_TERM + WATCHER_KILL))
  }

  predicate SameKillers(c: Command, d: Command) {
    && (d.timer == c.timer || d.timer == Armed || d.timer == NoTimer || d.timer == TimerGone(false))
    && (d.watcher == c.watcher || d.watcher == NoWatcher || d.watcher == Checking || d.watcher == Listening
        || d.watcher == Panicked || d.watcher == Returned(false))
  }

  lemma SameKillersSignalled(c: Command, d: Command, steps: seq<Step>, i: nat, s: Step)
    requires SignalHistory(c, steps, i) && SameKillers(c, d)
    ensures SignalHistory(d, steps + [s], i)
  {
    hide TookInOrder;
    forall actions | TookInOrder(steps, i, actions) ensures TookInOrder(steps + [s], i, actions) {
      StillTaken(steps, s, i, actions);
    }
  }

  predicate Kills(a: Action) {
    a in EXPIRED || a == ByTimer(TimerTerm) || a == ByTimer(TimerKill)
    || a in ABORT_LINE || a in CLIENT_LOST || a in WATCHER_TERM || a in WATCHER_KILL
  }

  lemma NothingTaken(steps: seq<Step>, i: nat)
    ensures TookInOrder(steps, i, [])
  {
  }

  lemma TimerKillsInOrder(c: Command, steps: seq<Step>, i: nat, a: TimerAction)
    requires SignalHistory(c, steps, i) && TimerEnabled(c, a) && Kills(ByTimer(a))
    ensures SignalHistory(TimerStep(c, a), steps + [Do(i, ByTimer(a))], i)
  {
    hide TookInOrder;
    forall actions | TookInOrder(steps, i, actions) ensures TookInOrder(steps + [Do(i, ByTimer(a))], i, actions) {
      StillTaken(steps, Do(i, ByTimer(a)), i, actions);
    }
    match a {
      case Expire =>
        NothingTaken(steps, i);
        NowTaken(steps, i, [], ByTimer(Expire));
        assert [] + [ByTimer(Expire)] == EXPIRED;
      case TimerTerm => NowTaken(steps, i, EXPIRED, ByTimer(TimerTerm));
      case TimerKill => NowTaken(steps, i, TERMINATED, ByTimer(TimerKill));
      case SeeCancel =>
    }
  }

  lemma WatcherKillsInOrder(c: Command, steps: seq<Step>, i: nat, a: WatcherAction)
    requires SignalHistory(c, steps, i) && WatcherEnabled(c, a) && Kills(ByWatcher(a))
    ensures SignalHistory(WatcherStep(c, a), steps + [Do(i, ByWatcher(a))], i)
  {
    hide TookInOrder;
    forall actions | TookInOrder(steps, i, actions) ensures TookInOrder(steps + [Do(i, ByWatcher(a))], i, actions) {
      StillTaken(steps, Do(i, ByWatcher(a)), i, actions);
    }
    assert [] + [ByWatcher(a)] == [ByWatcher(a)];
    match a {
      case Hear(_) =>
        NothingTaken(steps, i);
        NowTaken(steps, i, [], ByWatcher(a));
        assert ABORT_LINE + [] == ABORT_LINE && CLIENT_LOST + [] == CLIENT_LOST;
      case WatcherTerm =>
        assert ABORT_LINE + [] == ABORT_LINE && CLIENT_LOST + [] == CLIENT_LOST;
        ThenTaken(steps, i, [], ByWatcher(WatcherTerm));
        assert [] + WATCHER_TERM == WATCHER_TERM;
      case WatcherKill => ThenTaken(steps, i, WATCHER_TERM, ByWatcher(WatcherKill));
      case _ =>
    }
  }

  lemma ThenTaken(steps: seq<Step>, i: nat, actions: seq<Action>, a: Action)
    requires HeardThen(steps, i, actions)
    ensures HeardThen(steps + [Do(i, a)], i, actions + [a])
  {
    hide TookInOrder;
    Assoc(ABORT_LINE, actions, [a]);
    Assoc(CLIENT_LOST, actions, [a]);
    if TookInOrder(steps, i, ABORT_LINE + actions) {
      NowTaken(steps, i, ABORT_LINE + actions, a);
    } else {
      NowTaken(steps, i, CLIENT_LOST + actions, a);
    }
  }

  lemma OthersKillNothing(silent: bool, c: Command, a: Action)
    requires Ok(silent, c) && Enabled(c, a) && !Kills(a)
    ensures SameKillers(c, Act(c, a))
  {
    hide BufferOk, AnswerOk, WorkerStep, WorkerEnabled, ReaderStep, JobStep, JobEnabled;
    match a
    case ByWorker(w) => WorkerKillsNothing(c, w);
    case ByReader(r) => ReaderTouchesOnlyTheBuffer(c, r);
    case ByTimer(t) => TimerTouchesOnlyItself(c, t);
    case ByWatcher(w) => WatcherTouchesOnlyItself(c, w);
    case ByJob(j) => JobTouchesOnlyItself(c, j);
  }

  lemma WorkerKillsNothing(c: Command, a: WorkerAction)
    requires WorkerEnabled(c, a)
    ensures SameKillers(c, WorkerStep(c, a))
  {
    hide Classified, ErrnoFound, Startable;
  }

  lemma ActKeepsSignals(silent: bool, c: Command, steps: seq<Step>, i: nat, a: Action)
    requires Ok(silent, c) && SignalHistory(c, steps, i) && Enabled(c, a)
    ensures SignalHistory(Act(c, a), steps + [Do(i, a)], i)
  {
    hide SignalHistory, SameKillers, Ok, WorkerStep, WorkerEnabled, ReaderStep, TimerStep, WatcherStep, JobStep, Kills;
    if !Kills(a) {
      OthersKillNothing(silent, c, a);
      SameKillersSignalled(c, Act(c, a), steps, i, Do(i, a));
    } else {
      OnlyTheseKill(a);
      if a.ByTimer? {
        TimerKillsInOrder(c, steps, i, a.timer);
      } else {
        WatcherKillsInOrder(c, steps, i, a.watcher);
      }
    }
  }

  lemma OnlyTheseKill(a: Action)
    requires Kills(a)
    ensures a.ByTimer? || a.ByWatcher?
  {
  }

  ghost predicate AllSignalled(h: Host, steps: seq<Step>) {
    forall i :: 0 <= i < |h.commands| ==> SignalHistory(h.commands[i], steps, i)
  }

  lemma UntouchedKillers(c: Command, d: Command)
    requires Untouched(c, d)
    ensures SameKillers(c, d)
  {
  }

  lemma NewCommandSignals(s: Step, silent: bool, steps: seq<Step>, i: nat)
    requires s.Arrive?
    ensures SignalHistory(NewCommand(s.connection, s.request, s.time, silent), steps, i)
  {
  }

  lemma OwnStepSignals(h: Host, steps: seq<Step>, i: nat, a: Action)
    requires Inv(h) && StepEnabled(h, Do(i, a)) && SignalHistory(h.commands[i], steps, i)
    ensures Linked(h.transcript)
    ensures SignalHistory(Apply(h, Do(i, a)).commands[i], steps + [Do(i, a)], i)
  {
    hide Ok, Act, Enabled, SignalHistory, Shows, Logged, TurnsOk, ConsoleOk, JournalOk, LogOk;
    InvIsLinked(h);
    assert Ok(h.silent, h.commands[i]);
    ActKeepsSignals(h.silent, h.commands[i], steps, i, a);
  }

  lemma StepKeepsSignals(h: Host, steps: seq<Step>, s: Step)
    requires Inv(h) && StepEnabled(h, s) && AllSignalled(h, steps)
    ensures Linked(h.transcript) && AllSignalled(Apply(h, s), steps + [s])
  {
    hide Inv, Apply, StepEnabled, SignalHistory, Untouched, SameKillers;
    InvIsLinked(h);
    CommandsAreCounted(h, s);
    forall i | 0 <= i < |Apply(h, s).commands| ensures SignalHistory(Apply(h, s).commands[i], steps + [s], i) {
      if i >= |h.commands| {
        ArrivalsAreNew(h, s, i);
        NewCommandSignals(s, h.silent, steps + [s], i);
      } else if ActsOn(s, i) {
        OwnStepSignals(h, steps, i, s.action);
      } else {
        StepLeaves(h, s, i);
        UntouchedKillers(h.commands[i], Apply(h, s).commands[i]);
        SameKillersSignalled(h.commands[i], Apply(h, s).commands[i], steps, i, s);
      }
    }
  }

  lemma {:induction false} RunKeepsSignals(silent: bool, steps: seq<Step>)
    ensures var r := Run(silent, steps); r.Some? ==> AllSignalled(r.value, steps)
  {
    hide Inv, Apply, StepEnabled, SignalHistory;
    if steps != [] {
      var before, last := steps[..|steps| - 1], steps[|steps| - 1];
      RunKeepsSignals(silent, before);
      RunKeepsInv(silent, before);
      assert steps == before + [last];
      var r := Run(silent, before);
      if r.Some? && StepEnabled(r.value, last) {
        StepKeepsSignals(r.value, before, last);
      }
    }
  }
}
