/** How commands end in every run of the host: what `not_found` and `timeout` mean in terms of
    what the child and the threads did, and what the journal file then holds. */
module Outcomes {
  import opened Bytes
  import opened OutputFilters
  import opened Protocol
  import opened TranscriptQueues
  import opened TranscriptFiles
  import opened Commands
  import opened Hosts
  import opened HostTheorems
  import opened Histories
  import Completion
  import Utf8
  import P = PtyExec
  import S = Sessions

  // ---------- not found ----------

  function CallsOf(r: Request, start: Start): seq<P.Call> {
    P.Calls(r.clearEnv, start.envs, r.whoami)
  }

  /** A call of the child failed, all of its errno got into the pipe, and it could be read. */
  ghost predicate FailureCameThrough(r: Request, start: Start) {
    && (exists e :: P.SomeCallFails(CallsOf(r, start), start.outcomes, e))
    && P.Through(start.writes, 4) == 4
    && !P.ReadErrorReported(ErrnoPipe(r, start), start.read)
  }

  lemma ErrnoFoundMeansFailure(r: Request, start: Start)
    ensures ErrnoFound(r, start) <==> FailureCameThrough(r, start)
  {
    hide P.RunChild, P.SomeCallFails, P.PipeAfter, P.Learnt, P.Calls, P.ReadErrorReported;
    forall e ensures P.Learnt(ErrnoPipe(r, start), start.read) == Some(e)
                <==> P.SomeCallFails(CallsOf(r, start), start.outcomes, e) && P.Through(start.writes, 4) == 4
                     && !P.ReadErrorReported(ErrnoPipe(r, start), start.read) {
      P.HostLearnsTheFailure(start.inherited, CallsOf(r, start), start.outcomes, start.writes, start.read, e);
    }
    var found := P.Learnt(ErrnoPipe(r, start), start.read);
    assert found.Some? ==> found == Some(found.value);
  }

  /** How the start went is what the steps say: the one that forked the child and the one that
      read its errno. */
  ghost predicate StartOnRecord(c: Command, steps: seq<Step>, i: nat) {
    exists j, k ::
      && 0 <= j < |steps| && 0 <= k < |steps| && Launches(steps[j], i) && ReadsErrno(steps[k], i)
      && c.start == steps[j].action.worker.start.(read := steps[k].action.worker.read)
  }

  lemma AnsweredIsOnRecord(c: Command, steps: seq<Step>, i: nat)
    requires ChildHistory(c, steps, i) && c.spawned && HasRead(c.worker)
    ensures StartOnRecord(c, steps, i)
  {
    var j :| 0 <= j < |steps| && Launches(steps[j], i);
    var k :| 0 <= k < |steps| && ReadsErrno(steps[k], i);
  }

  /** What the answer of a command and the steps so far have to do with each other. */
  lemma AnswersAndSteps(silent: bool, steps: seq<Step>, i: nat)
    ensures var r := Run(silent, steps);
            r.Some? && i < |r.value.commands| ==>
              var c := r.value.commands[i];
              && CommandFacts(silent, c) && CommandHistory(c, steps, i)
              && (c.response.Some? ==> (c.spawned ==> HasRead(c.worker)) && (!c.spawned ==> c.worker != Spawning))
              && (c.errno && c.spawned && c.response.Some? ==> ErrnoFound(c.request, c.start))
  {
    hide Run, CommandHistory, Inv;
    OutputIsConserved(silent, steps, i);
    RunKeepsHistory(silent, steps, i);
    RunKeepsInv(silent, steps);
    var r := Run(silent, steps);
    if r.Some? && i < |r.value.commands| {
      InvIsOk(r.value);
      assert Ok(silent, r.value.commands[i]);
      if r.value.commands[i].response.Some? {
        AnsweredIsThrough(silent, r.value.commands[i]);
      }
      hide CommandFacts, Ok;
    }
  }

  lemma AnsweredIsThrough(silent: bool, c: Command)
    requires Ok(silent, c) && c.response.Some?
    ensures c.spawned ==> HasRead(c.worker)
    ensures !c.spawned ==> c.worker != Spawning
  {
    hide BufferOk, Truthful, Filtered, ErrnoFound;
  }

  /** In every run a started command is answered `not_found` exactly when one of the child's
      calls failed, whichever, its errno got through whole, and no read of it failed. */
  lemma NotFoundIsAFailedStart(silent: bool, steps: seq<Step>, i: nat)
    ensures var r := Run(silent, steps);
            r.Some? && i < |r.value.commands| ==>
              var c := r.value.commands[i];
              c.spawned && c.response.Some? ==>
                && StartOnRecord(c, steps, i)
                && (c.response.value.error == Some(NotFound) <==> FailureCameThrough(c.request, c.start))
                && (c.response.value.error == Some(NotFound) ==> c.response.value.exit == 127)
  {
    hide Run, FailureCameThrough, ErrnoFound, Filtered, ChildHistory, StartOnRecord;
    AnswersAndSteps(silent, steps, i);
    var r := Run(silent, steps);
    if r.Some? && i < |r.value.commands| {
      var c := r.value.commands[i];
      ErrnoFoundMeansFailure(c.request, c.start);
      if c.spawned && c.response.Some? {
        AnsweredIsOnRecord(c, steps, i);
      }
    }
  }

  /** The child got its standard input, and its `chdir` failed with e. */
  predicate ChdirFailed(c: Command, e: P.errno) {
    exists k :: 0 <= k < |CallsOf(c.request, c.start)| && CallsOf(c.request, c.start)[k] == P.Chdir
                && P.FirstFailure(CallsOf(c.request, c.start), c.start.outcomes, k, e)
  }

  lemma SecondCallIsChdir(c: Command, e: P.errno)
    requires c.start.outcomes == [P.Works, P.FailsWith(e)]
    ensures ChdirFailed(c, e) && P.SomeCallFails(CallsOf(c.request, c.start), c.start.outcomes, e)
  {
    var calls := CallsOf(c.request, c.start);
    P.CallsInOrder(c.request.clearEnv, c.start.envs, c.request.whoami);
    assert calls[0] == P.Dup2 && calls[1] == P.Chdir;
    assert P.FirstFailure(calls, c.start.outcomes, 1, e);
  }

  // ---------- runs of one command ----------

  function DoAll(i: nat, actions: seq<Action>): seq<Step> {
    seq(|actions|, k requires 0 <= k < |actions| => Do(i, actions[k]))
  }

  /** What a command can do by itself it can do on the host. */
  lemma {:induction false} HostRunsActions(silent: bool, steps: seq<Step>, i: nat, actions: seq<Action>)
    requires var r := Run(silent, steps);
             r.Some? && i < |r.value.commands| && Completion.ActAll(r.value.commands[i], actions).Some?
    ensures var r := Run(silent, steps + DoAll(i, actions));
            && r.Some? && i < |r.value.commands|
            && Some(r.value.commands[i]) == Completion.ActAll(Run(silent, steps).value.commands[i], actions)
    decreases actions
  {
    hide Run, Enabled, Act;
    if actions == [] {
      assert steps + DoAll(i, actions) == steps;
    } else {
      var first, rest := Do(i, actions[0]), actions[1..];
      OneMoreStep(silent, steps, first);
      HostRunsActions(silent, steps + [first], i, rest);
      assert steps + DoAll(i, actions) == (steps + [first]) + DoAll(i, rest);
    }
  }

  lemma Front(c: Command, a: Action, rest: seq<Action>)
    requires Enabled(c, a)
    ensures Completion.ActAll(c, [a] + rest) == Completion.ActAll(Act(c, a), rest)
  {
    hide Enabled, Act;
    assert ([a] + rest)[1..] == rest;
  }

  /** A started command whose output ends before its timer fires and its client aborts. */
  predicate Quietly(c: Command) {
    && c.spawned && c.worker == JoiningReader && c.reader == Reading && c.watcher == Checking
    && c.timer == (if c.request.timeout == 0 then NoTimer else Armed)
    && !c.cancelSent && !c.finished
  }

  const TO_CANCEL: seq<Action> := [ByReader(EndOfFile)] + ([ByWorker(JoinReader)] + ([ByWorker(SetFinished)] + [ByWorker(CancelTimer)]))

  function FromCancel(c: Command): seq<Action> {
    (if c.request.timeout == 0 then [] else [ByTimer(SeeCancel)] + [ByWorker(JoinTimer)])
    + ([ByWatcher(CheckFinished)] + [ByWorker(JoinWatcher)])
  }

  function ToAnswer(status: int, read: P.PipeRead): seq<Action> {
    [ByWorker(Reap(status))] + [ByWorker(ReadErrno(read))]
  }

  predicate Cancelled(c: Command, d: Command) {
    && d.worker == (if c.request.timeout == 0 then JoiningWatcher else JoiningTimer)
    && d.watcher == Checking && d.finished && d.timer == c.timer && d.cancelSent == (c.request.timeout != 0)
    && d.request == c.request && d.start == c.start && d.spawned == c.spawned && d.pty.rawTotal == c.pty.rawTotal
  }

  lemma UpToCancel(c: Command)
    requires Quietly(c)
    ensures var r := Completion.ActAll(c, TO_CANCEL); r.Some? && Cancelled(c, r.value)
  {
    var a, b, d := ByReader(EndOfFile), ByWorker(JoinReader), ByWorker(SetFinished);
    var last := [ByWorker(CancelTimer)];
    Front(c, a, [b] + ([d] + last));
    var c1 := Act(c, a);
    Front(c1, b, [d] + last);
    var c2 := Act(c1, b);
    Front(c2, d, last);
    assert last == last + [];
    Front(Act(c2, d), ByWorker(CancelTimer), []);
  }

  predicate Joined(c: Command, d: Command) {
    && d.worker == Reaping && d.watcher == Returned(false) && d.request == c.request && d.start == c.start
    && d.spawned == c.spawned && Quiet(d.timer) && d.timer != TimerGone(true) && d.pty.rawTotal == c.pty.rawTotal
  }

  lemma UpToReap(c: Command, d: Command)
    requires Quietly(c) && Cancelled(c, d)
    ensures var r := Completion.ActAll(d, FromCancel(c)); r.Some? && Joined(c, r.value)
  {
    var a, b := ByWatcher(CheckFinished), ByWorker(JoinWatcher);
    if c.request.timeout == 0 {
      assert FromCancel(c) == [a] + [b];
      WatcherReturns(c, d);
    } else {
      var e, f := ByTimer(SeeCancel), ByWorker(JoinTimer);
      assert FromCancel(c) == [e] + ([f] + ([a] + [b]));
      Front(d, e, [f] + ([a] + [b]));
      var d1 := Act(d, e);
      Front(d1, f, [a] + [b]);
      WatcherReturns(c, Act(d1, f));
    }
  }

  lemma WatcherReturns(c: Command, d: Command)
    requires d.worker == JoiningWatcher && d.watcher == Checking && d.finished
    requires d.request == c.request && d.start == c.start && d.spawned == c.spawned && d.pty.rawTotal == c.pty.rawTotal
    requires Quiet(d.timer) && d.timer != TimerGone(true)
    ensures var r := Completion.ActAll(d, [ByWatcher(CheckFinished)] + [ByWorker(JoinWatcher)]); r.Some? && Joined(c, r.value)
  {
    var b := ByWorker(JoinWatcher);
    Front(d, ByWatcher(CheckFinished), [b]);
    assert [b] == [b] + [];
    Front(Act(d, ByWatcher(CheckFinished)), b, []);
  }

  predicate Answered(c: Command, d: Command, status: int, read: P.PipeRead) {
    && d.worker == Answering && d.reaped && d.spawned == c.spawned
    && d.request == c.request && d.start == c.start.(read := read)
    && d.response.Some? && d.pty.rawTotal == c.pty.rawTotal && d.status == status
    && d.response.value.error == (if ErrnoFound(d.request, d.start) then Some(NotFound) else None)
  }

  lemma UpToAnswer(c: Command, d: Command, status: int, read: P.PipeRead)
    requires Joined(c, d)
    ensures var r := Completion.ActAll(d, ToAnswer(status, read)); r.Some? && Answered(c, r.value, status, read)
  {
    hide ErrnoFound;
    var b := ByWorker(ReadErrno(read));
    Front(d, ByWorker(Reap(status)), [b]);
    assert [b] == [b] + [];
    Front(Act(d, ByWorker(Reap(status))), b, []);
  }

  lemma {:induction false} ActAllConcat(c: Command, x: seq<Action>, y: seq<Action>)
    requires Completion.ActAll(c, x).Some?
    ensures Completion.ActAll(c, x + y) == Completion.ActAll(Completion.ActAll(c, x).value, y)
    decreases x
  {
    hide Enabled, Act;
    if x == [] {
      assert x + y == y;
    } else {
      assert (x + y)[1..] == x[1..] + y;
      ActAllConcat(Act(c, x[0]), x[1..], y);
    }
  }

  function QuietEnd(c: Command, status: int, read: P.PipeRead): seq<Action> {
    TO_CANCEL + (FromCancel(c) + ToAnswer(status, read))
  }

  lemma EndsQuietly(c: Command, status: int, read: P.PipeRead)
    requires Quietly(c)
    ensures var r := Completion.ActAll(c, QuietEnd(c, status, read)); r.Some? && Answered(c, r.value, status, read)
  {
    hide Quietly, Cancelled, Joined, Answered, Completion.ActAll, FromCancel, ToAnswer;
    UpToCancel(c);
    var d := Completion.ActAll(c, TO_CANCEL).value;
    UpToReap(c, d);
    var e := Completion.ActAll(d, FromCancel(c)).value;
    UpToAnswer(c, e, status, read);
    ActAllConcat(d, FromCancel(c), ToAnswer(status, read));
    ActAllConcat(c, TO_CANCEL, FromCancel(c) + ToAnswer(status, read));
  }

  /** A command arrives at a fresh host and its child is forked. */
  lemma Launched(silent: bool, request: Request, time: bytes, start: Start) returns (steps: seq<Step>)
    requires request.exec != [] && Startable(request, start.envs)
    ensures steps == [Arrive(0, request, time)] + DoAll(0, [ByWorker(SpawnSucceeds(start)), ByWorker(QueueJob)])
    ensures var r := Run(silent, steps);
            r.Some? && |r.value.commands| > 0 && Quietly(r.value.commands[0])
            && r.value.commands[0].request == request && r.value.commands[0].start == start
            && r.value.commands[0].spawned && r.value.commands[0].pty.rawTotal == []
  {
    var arrive := [Arrive(0, request, time)];
    var a, b := ByWorker(SpawnSucceeds(start)), ByWorker(QueueJob);
    assert Run(silent, []) == Some(NewHost(silent));
    OneMoreStep(silent, [], arrive[0]);
    assert [] + arrive == arrive;
    var c := NewCommand(0, request, time, silent);
    assert Run(silent, arrive).value.commands == [c];
    LaunchedActions(c, start);
    assert [a] + [b] == [a, b];
    HostRunsActions(silent, arrive, 0, [a, b]);
    steps := arrive + DoAll(0, [a, b]);
  }

  lemma LaunchedActions(c: Command, start: Start)
    requires c.worker == Spawning && Startable(c.request, start.envs) && !c.cancelSent && !c.finished && c.pty.rawTotal == []
    ensures var r := Completion.ActAll(c, [ByWorker(SpawnSucceeds(start))] + [ByWorker(QueueJob)]);
            && r.Some? && Quietly(r.value) && r.value.request == c.request && r.value.start == start
            && r.value.spawned && r.value.pty.rawTotal == []
  {
    hide Startable;
    var b := ByWorker(QueueJob);
    Front(c, ByWorker(SpawnSucceeds(start)), [b]);
    assert [b] == [b] + [];
    Front(Act(c, ByWorker(SpawnSucceeds(start))), b, []);
  }

  /** A run in which a command is launched, comes to a quiet end and is answered. */
  lemma QuietRun(silent: bool, request: Request, time: bytes, start: Start, status: int, read: P.PipeRead)
    returns (steps: seq<Step>, launched: Command)
    requires request.exec != [] && Startable(request, start.envs)
    ensures launched.request == request && launched.start == start && launched.spawned
    ensures steps == [Arrive(0, request, time)] + DoAll(0, [ByWorker(SpawnSucceeds(start)), ByWorker(QueueJob)])
                     + DoAll(0, QuietEnd(launched, status, read))
    ensures var r := Run(silent, steps); r.Some? && |r.value.commands| > 0 && Answered(launched, r.value.commands[0], status, read)
  {
    hide Run, Answered, QuietEnd;
    steps := Launched(silent, request, time, start);
    launched := Run(silent, steps).value.commands[0];
    EndsQuietly(launched, status, read);
    HostRunsActions(silent, steps, 0, QuietEnd(launched, status, read));
    steps := steps + DoAll(0, QuietEnd(launched, status, read));
  }

  // ---------- all of it happens ----------

  function Chunks(chunks: seq<bytes>): seq<Action> {
    seq(|chunks|, k requires 0 <= k < |chunks| => ByReader(Chunk(chunks[k])))
  }

  /** A started command may output anything, in reads of up to 8192 bytes. */
  lemma {:induction false} OutputComes(c: Command, chunks: seq<bytes>)
    requires Quietly(c) && forall chunk :: chunk in chunks ==> 0 < |chunk| <= 8192
    ensures var r := Completion.ActAll(c, Chunks(chunks));
            && r.Some? && Quietly(r.value) && r.value.request == c.request && r.value.start == c.start
            && r.value.pty.rawTotal == c.pty.rawTotal + Concat(chunks)
    decreases chunks
  {
    if chunks == [] {
      assert c.pty.rawTotal + [] == c.pty.rawTotal;
    } else {
      var a := ByReader(Chunk(chunks[0]));
      assert Chunks(chunks) == [a] + Chunks(chunks[1..]);
      OneChunkComes(c, chunks[0]);
      Front(c, a, Chunks(chunks[1..]));
      hide Quietly, Act, Enabled, Completion.ActAll;
      OutputComes(Act(c, a), chunks[1..]);
      Assoc(c.pty.rawTotal, chunks[0], Concat(chunks[1..]));
    }
  }

  lemma OneChunkComes(c: Command, chunk: bytes)
    requires Quietly(c) && 0 < |chunk| <= 8192
    ensures var a := ByReader(Chunk(chunk));
            && Enabled(c, a) && Quietly(Act(c, a)) && Act(c, a).request == c.request && Act(c, a).start == c.start
            && Act(c, a).pty.rawTotal == c.pty.rawTotal + chunk
  {
    hide Output, EndState;
  }

  /** For every request that can be started, every output and every exit status there is a run
      in which the command puts it out, exits with that status, and is answered with the
      filtered output, the status and no error. */
  lemma AnyOutputCanBeAnswered(silent: bool, request: Request, time: bytes, envs: seq<(bytes, bytes)>,
                               chunks: seq<bytes>, status: int)
    returns (steps: seq<Step>)
    requires request.exec != [] && Startable(request, envs)
    requires forall chunk :: chunk in chunks ==> 0 < |chunk| <= 8192
    ensures var r := Run(silent, steps);
            r.Some? && |r.value.commands| > 0
            && r.value.commands[0].request == request
            && r.value.commands[0].response == Some(Response(status, Filtered(Concat(chunks)), None))
  {
    hide Run, Answered, QuietEnd, ErrnoFound, Filtered, Quietly, Concat, Completion.ActAll;
    var start := Start(map[], envs, [], [], P.PipeRead(true, []));
    steps := Launched(silent, request, time, start);
    var launched := Run(silent, steps).value.commands[0];
    OutputComes(launched, chunks);
    var c := Completion.ActAll(launched, Chunks(chunks)).value;
    HostRunsActions(silent, steps, 0, Chunks(chunks));
    steps := steps + DoAll(0, Chunks(chunks));
    EndsQuietly(c, status, P.PipeRead(true, []));
    HostRunsActions(silent, steps, 0, QuietEnd(c, status, P.PipeRead(true, [])));
    steps := steps + DoAll(0, QuietEnd(c, status, P.PipeRead(true, [])));
    NoReportNoErrno(request, start);
    OutputIsConserved(silent, steps, 0);
    AnsweredHas(c, Run(silent, steps).value.commands[0], status, P.PipeRead(true, []));
    assert [] + Concat(chunks) == Concat(chunks);
  }

  lemma AnsweredHas(c: Command, d: Command, status: int, read: P.PipeRead)
    requires Answered(c, d, status, read)
    ensures d.response.Some? && d.pty.rawTotal == c.pty.rawTotal && d.status == status && d.spawned == c.spawned
    ensures d.request == c.request && d.start == c.start.(read := read)
    ensures d.response.value.error == if ErrnoFound(d.request, d.start) then Some(NotFound) else None
  {
    hide ErrnoFound;
  }

  /** A failed `chdir` is answered `not_found`: for any request that can be started there is such a run. */
  lemma FailedChdirIsNotFound(silent: bool, request: Request, time: bytes, envs: seq<(bytes, bytes)>, e: P.errno)
    returns (steps: seq<Step>)
    requires request.exec != [] && Startable(request, envs)
    ensures var r := Run(silent, steps);
            r.Some? && |r.value.commands| > 0
            && ChdirFailed(r.value.commands[0], e)
            && r.value.commands[0].response.Some?
            && r.value.commands[0].response.value.error == Some(NotFound)
            && r.value.commands[0].response.value.exit == 127
  {
    hide Run, P.SomeCallFails;
    var start := Start(map[], envs, [P.Works, P.FailsWith(e)], [P.Moves(4)], P.PipeRead(true, []));
    var launched;
    steps, launched := QuietRun(silent, request, time, start, 127, P.PipeRead(true, []));
    var c := Run(silent, steps).value.commands[0];
    SecondCallIsChdir(c, e);
    NotFoundIsAFailedStart(silent, steps, 0);
  }

  // ---------- timeout, abort, spawn failure, and nothing amiss ----------

  /** In every run a started command is answered `timeout` exactly when no errno was found and
      its timer fired before its worker cancelled it; a timer never fires after that. */
  lemma TimedOutMeansExpiredFirst(silent: bool, steps: seq<Step>, i: nat)
    ensures var r := Run(silent, steps);
            r.Some? && i < |r.value.commands| ==>
              var c := r.value.commands[i];
              && (c.spawned && c.response.Some? ==>
                    && (c.response.value.error == Some(TimedOut) <==>
                          !FailureCameThrough(c.request, c.start) && ExpiredFirst(steps, i))
                    && (c.response.value.error == Some(TimedOut) ==> c.response.value.exit == 124))
              && (forall j, k :: 0 <= j < |steps| && 0 <= k < |steps| && Expiry(steps[j], i) && Cancellation(steps[k], i) ==> j < k)
  {
    hide Run, FailureCameThrough, ErrnoFound, Filtered, WatcherHistory, ChildHistory, RefusalHistory;
    AnswersAndSteps(silent, steps, i);
    var r := Run(silent, steps);
    if r.Some? && i < |r.value.commands| {
      ErrnoFoundMeansFailure(r.value.commands[i].request, r.value.commands[i].start);
    }
  }

  /** In every run a command answered `timeout` has had its process group terminated and then
      killed, after its timer expired; and one answered `aborted`, after the abort was heard. */
  lemma KilledWhenItSaysSo(silent: bool, steps: seq<Step>, i: nat)
    ensures var r := Run(silent, steps);
            r.Some? && i < |r.value.commands| ==>
              var c := r.value.commands[i];
              c.spawned && c.response.Some? ==>
                && (c.response.value.error == Some(TimedOut) ==>
                      TookInOrder(steps, i, [ByTimer(Expire), ByTimer(TimerTerm), ByTimer(TimerKill)]))
                && (c.response.value.error == Some(Aborted) ==>
                      || TookInOrder(steps, i, [ByWatcher(Hear(S.Got(S.Abort))), ByWatcher(WatcherTerm), ByWatcher(WatcherKill)])
                      || TookInOrder(steps, i, [ByWatcher(Hear(S.Disconnected)), ByWatcher(WatcherTerm), ByWatcher(WatcherKill)]))
  {
    hide Run, ErrnoFound, Filtered, TookInOrder;
    OutputIsConserved(silent, steps, i);
    RunKeepsSignals(silent, steps);
    assert KILLED == [ByTimer(Expire), ByTimer(TimerTerm), ByTimer(TimerKill)];
    assert ABORT_LINE + (WATCHER_TERM + WATCHER_KILL) == [ByWatcher(Hear(S.Got(S.Abort))), ByWatcher(WatcherTerm), ByWatcher(WatcherKill)];
    assert CLIENT_LOST + (WATCHER_TERM + WATCHER_KILL) == [ByWatcher(Hear(S.Disconnected)), ByWatcher(WatcherTerm), ByWatcher(WatcherKill)];
  }

  /** The exit status is what the reap of the child returned. */
  ghost predicate ExitIsTheChilds(exit: int, steps: seq<Step>, i: nat) {
    exists k :: 0 <= k < |steps| && Reaps(steps[k], i) && exit == steps[k].action.worker.status
  }

  /** In every run a started command is answered `aborted`, with the child's exit status,
      exactly when no errno was found, its timer did not fire first, and its watcher heard an
      abort line or lost the client. */
  lemma AbortedMeansHeard(silent: bool, steps: seq<Step>, i: nat)
    ensures var r := Run(silent, steps);
            r.Some? && i < |r.value.commands| ==>
              var c := r.value.commands[i];
              c.spawned && c.response.Some? ==>
                && (c.response.value.error == Some(Aborted) <==>
                      !FailureCameThrough(c.request, c.start) && !ExpiredFirst(steps, i) && SomeAbort(steps, i))
                && (c.response.value.error == Some(Aborted) ==> ExitIsTheChilds(c.response.value.exit, steps, i))
  {
    hide Run, FailureCameThrough, ErrnoFound, Filtered, TimerHistory, RefusalHistory, ExpiredFirst, SomeAbort, ExitIsTheChilds;
    AnswersAndSteps(silent, steps, i);
    TimedOutMeansExpiredFirst(silent, steps, i);
    NotFoundIsAFailedStart(silent, steps, i);
    var r := Run(silent, steps);
    if r.Some? && i < |r.value.commands| {
      var c := r.value.commands[i];
      if c.spawned && c.response.Some? {
        StatusIsOnRecord(c, steps, i);
      }
    }
  }

  lemma StatusIsOnRecord(c: Command, steps: seq<Step>, i: nat)
    requires ChildHistory(c, steps, i) && c.reaped
    ensures ExitIsTheChilds(c.status, steps, i)
  {
    var k :| 0 <= k < |steps| && Reaps(steps[k], i);
  }

  /** In every run a started command is answered without an error, and with the child's exit
      status, exactly when nothing of the kind happened. */
  lemma NoErrorMeansNothingAmiss(silent: bool, steps: seq<Step>, i: nat)
    ensures var r := Run(silent, steps);
            r.Some? && i < |r.value.commands| ==>
              var c := r.value.commands[i];
              c.spawned && c.response.Some? ==>
                && (c.response.value.error == None <==>
                      !FailureCameThrough(c.request, c.start) && !ExpiredFirst(steps, i) && !SomeAbort(steps, i))
                && (c.response.value.error == None ==> ExitIsTheChilds(c.response.value.exit, steps, i))
  {
    hide Run, FailureCameThrough, ErrnoFound, Filtered, TimerHistory, RefusalHistory, ExpiredFirst, SomeAbort, ExitIsTheChilds;
    AnswersAndSteps(silent, steps, i);
    TimedOutMeansExpiredFirst(silent, steps, i);
    NotFoundIsAFailedStart(silent, steps, i);
    var r := Run(silent, steps);
    if r.Some? && i < |r.value.commands| {
      var c := r.value.commands[i];
      if c.spawned && c.response.Some? {
        StatusIsOnRecord(c, steps, i);
      }
    }
  }

  /** In every run a command is answered `spawn_failed` exactly when `spawn` failed before the
      child ran, with exit 127 and the message of that failure. */
  lemma SpawnFailedMeansRefused(silent: bool, steps: seq<Step>, i: nat)
    ensures var r := Run(silent, steps);
            r.Some? && i < |r.value.commands| ==>
              var c := r.value.commands[i];
              c.response.Some? ==>
                && (c.response.value.error == Some(SpawnFailed) <==> SomeRefusal(steps, i))
                && (c.response.value.error == Some(SpawnFailed) <==> !SomeLaunch(steps, i))
                && (forall j :: 0 <= j < |steps| && Refuses(steps[j], i) ==>
                      c.response.value.exit == 127 && c.response.value.output == steps[j].action.worker.message)
  {
    hide Run, ErrnoFound, Filtered, TimerHistory, WatcherHistory, SomeLaunch;
    AnswersAndSteps(silent, steps, i);
    var r := Run(silent, steps);
    if r.Some? && i < |r.value.commands| && r.value.commands[i].response.Some? {
      assert !r.value.commands[i].spawned <==> SomeRefusal(steps, i);
    }
  }

  /** A child can outlive its timeout unnoticed: once its PTY is at its end the timer is
      cancelled, the child is reaped later, and the command is answered without an error. */
  lemma TimeoutIsCancelledBeforeTheReap(silent: bool, request: Request, time: bytes, envs: seq<(bytes, bytes)>, status: int)
    returns (steps: seq<Step>, j: nat, k: nat)
    requires request.exec != [] && Startable(request, envs) && request.timeout > 0
    ensures j < k < |steps| && Cancellation(steps[j], 0) && steps[k] == Do(0, ByWorker(Reap(status)))
    ensures var r := Run(silent, steps);
            r.Some? && |r.value.commands| > 0
            && r.value.commands[0].request == request && r.value.commands[0].reaped
            && r.value.commands[0].response.Some? && r.value.commands[0].response.value.error == None
  {
    hide Run;
    var start := Start(map[], envs, [], [], P.PipeRead(true, []));
    var launched;
    steps, launched := QuietRun(silent, request, time, start, status, P.PipeRead(true, []));
    NoReportNoErrno(request, start);
    j, k := 6, 11;
    assert QuietEnd(launched, status, P.PipeRead(true, []))
        == [ByReader(EndOfFile), ByWorker(JoinReader), ByWorker(SetFinished), ByWorker(CancelTimer),
            ByTimer(SeeCancel), ByWorker(JoinTimer), ByWatcher(CheckFinished), ByWorker(JoinWatcher),
            ByWorker(Reap(status)), ByWorker(ReadErrno(P.PipeRead(true, [])))];
  }

  lemma NoReportNoErrno(request: Request, start: Start)
    requires start.outcomes == []
    ensures !ErrnoFound(request, start)
  {
  }

  // ---------- timeouts and aborts happen ----------

  /** Whatever a started command has come to, its threads can bring it to its answer; the steps
      that led there stay on record. */
  lemma RunsOut(silent: bool, steps: seq<Step>) returns (more: seq<Step>)
    requires Run(silent, steps).Some? && |Run(silent, steps).value.commands| > 0
    requires Run(silent, steps).value.commands[0].spawned && !Completion.Lost(Run(silent, steps).value.commands[0])
    ensures steps <= more
    ensures var r := Run(silent, more);
            r.Some? && |r.value.commands| > 0 && r.value.commands[0].response.Some?
            && r.value.commands[0].request == Run(silent, steps).value.commands[0].request
  {
    hide Run, Inv, Completion.Lost;
    RunKeepsInv(silent, steps);
    var h := Run(silent, steps).value;
    InvIsOk(h);
    assert Ok(h.silent, h.commands[0]);
    hide Ok;
    var actions := Completion.AnswerNeedsNoConsole(h.silent, h.commands[0]);
    ActionsKeepRequest(h.silent, h.commands[0], actions);
    HostRunsActions(silent, steps, 0, actions);
    more := steps + DoAll(0, actions);
  }

  lemma {:induction false} ActionsKeepRequest(silent: bool, c: Command, actions: seq<Action>)
    requires Ok(silent, c) && Completion.ActAll(c, actions).Some?
    ensures Completion.ActAll(c, actions).value.request == c.request
    decreases actions
  {
    hide Ok, Act, Enabled;
    if actions != [] {
      ActKeepsOk(silent, c, actions[0]);
      OkIsThreadsOk(silent, c);
      ActKeepsRequest(c, actions[0]);
      ActionsKeepRequest(silent, Act(c, actions[0]), actions[1..]);
    }
  }

  /** A command that was launched so and is not asked to fail is not answered `not_found`. */
  lemma LaunchedAndNotFailing(silent: bool, steps: seq<Step>, request: Request, time: bytes, start: Start)
    requires start.outcomes == []
    requires [Arrive(0, request, time)] + DoAll(0, [ByWorker(SpawnSucceeds(start)), ByWorker(QueueJob)]) <= steps
    ensures var r := Run(silent, steps);
            r.Some? && |r.value.commands| > 0 ==>
              !FailureCameThrough(r.value.commands[0].request, r.value.commands[0].start) && r.value.commands[0].spawned
  {
    hide Run, TimerHistory, WatcherHistory, RefusalHistory;
    RunKeepsHistory(silent, steps, 0);
    assert steps[1] == Do(0, ByWorker(SpawnSucceeds(start)));
    assert Launches(steps[1], 0);
    var r := Run(silent, steps);
    if r.Some? && |r.value.commands| > 0 {
      var c := r.value.commands[0];
      assert c.start == start.(read := c.start.read);
      NoReportNoErrno(c.request, c.start);
      ErrnoFoundMeansFailure(c.request, c.start);
    }
  }

  /** A step of a launched command. */
  lemma OneAction(silent: bool, steps: seq<Step>, a: Action) returns (more: seq<Step>)
    requires var r := Run(silent, steps); r.Some? && |r.value.commands| > 0 && Enabled(r.value.commands[0], a)
    ensures more == steps + [Do(0, a)]
    ensures var r := Run(silent, more);
            r.Some? && |r.value.commands| > 0 && r.value.commands[0] == Act(Run(silent, steps).value.commands[0], a)
  {
    more := steps + [Do(0, a)];
    hide Act, Enabled, Shows, Logged;
    OneMoreStep(silent, steps, Do(0, a));
  }

  /** For every request with a timeout there is a run in which it is answered `timeout`. */
  lemma TimeoutHappens(silent: bool, request: Request, time: bytes, envs: seq<(bytes, bytes)>) returns (steps: seq<Step>)
    requires request.exec != [] && Startable(request, envs) && request.timeout > 0
    ensures var r := Run(silent, steps);
            r.Some? && |r.value.commands| > 0 && r.value.commands[0].response.Some?
            && r.value.commands[0].response.value.error == Some(TimedOut) && r.value.commands[0].response.value.exit == 124
  {
    hide Run, FailureCameThrough, DoAll;
    var start := Start(map[], envs, [], [], P.PipeRead(true, []));
    var launch := Launched(silent, request, time, start);
    steps := OneAction(silent, launch, ByTimer(Expire));
    var n := |launch|;
    steps := RunsOut(silent, steps);
    assert steps[n] == Do(0, ByTimer(Expire)) && launch <= steps;
    LaunchedAndNotFailing(silent, steps, request, time, start);
    TimedOutMeansExpiredFirst(silent, steps, 0);
    assert Expiry(steps[n], 0);
  }

  /** And for every request one in which its client's abort is heard and it is answered `aborted`. */
  lemma AbortHappens(silent: bool, request: Request, time: bytes, envs: seq<(bytes, bytes)>) returns (steps: seq<Step>)
    requires request.exec != [] && Startable(request, envs) && request.timeout == 0
    ensures var r := Run(silent, steps);
            r.Some? && |r.value.commands| > 0 && r.value.commands[0].response.Some?
            && r.value.commands[0].response.value.error == Some(Aborted)
  {
    hide Run, FailureCameThrough, DoAll;
    var start := Start(map[], envs, [], [], P.PipeRead(true, []));
    var launch := Launched(silent, request, time, start);
    steps := OneAction(silent, launch, ByWatcher(CheckFinished));
    var n := |steps|;
    steps := OneAction(silent, steps, ByWatcher(Hear(S.Got(S.Abort))));
    steps := RunsOut(silent, steps);
    assert launch <= steps && steps[n] == Do(0, ByWatcher(Hear(S.Got(S.Abort))));
    LaunchedAndNotFailing(silent, steps, request, time, start);
    AbortedMeansHeard(silent, steps, 0);
    assert AbortHeard(steps[n], 0);
    NeverExpires(silent, steps);
  }

  /** Without a timeout no timer expires. */
  lemma NeverExpires(silent: bool, steps: seq<Step>)
    ensures var r := Run(silent, steps);
            r.Some? && |r.value.commands| > 0 && r.value.commands[0].request.timeout == 0 ==> !ExpiredFirst(steps, 0)
  {
    hide Run, WatcherHistory, ChildHistory, RefusalHistory;
    RunKeepsHistory(silent, steps, 0);
    RunKeepsInv(silent, steps);
    var r := Run(silent, steps);
    if r.Some? && |r.value.commands| > 0 {
      InvIsOk(r.value);
      assert Ok(r.value.silent, r.value.commands[0]);
    }
  }

  // ---------- the journal file ----------

  function EntriesOf(records: seq<Record>): (entries: seq<TranscriptEntry>)
    ensures |entries| == |records|
    ensures forall k :: 0 <= k < |records| ==> entries[k] == records[k].entry
  {
    seq(|records|, k requires 0 <= k < |records| => records[k].entry)
  }

  function FileOf(codec: Codec, q: Queue): bytes {
    Journal(codec, EntriesOf(q.drained))
  }

  /** Each record drained is one `append` to the file. */
  lemma DrainAppends(codec: Codec, q: Queue)
    requires Linked(q) && q.next in q.pending
    ensures FileOf(codec, DrainOne(q)) == FileOf(codec, q) + Line(codec, q.pending[q.next].entry)
  {
    var r := q.pending[q.next];
    hide Journal, Line;
    assert EntriesOf(q.drained + [r]) == EntriesOf(q.drained) + [r.entry];
    JournalSnoc(codec, EntriesOf(q.drained), r.entry);
  }

  /** The request and its time are text. */
  predicate RequestIsText(r: Request, time: bytes) {
    && Utf8.Valid(r.whoami) && Utf8.Valid(r.dir) && Utf8.Valid(time)
    && (forall name :: name in r.envs ==> Utf8.Valid(name) && Utf8.Valid(r.envs[name]))
    && (forall arg :: arg in r.exec ==> Utf8.Valid(arg))
  }

  /** When the output needs no conversion either: it is text and no byte from 0x80 up follows an
      ESC; for a command that was not spawned, the message is text. */
  predicate OutputIsText(c: Command) {
    if c.spawned then Utf8.Valid(c.pty.rawTotal) && Utf8.NoHighByteInEsc(Normal, c.pty.rawTotal)
    else c.response.Some? && Utf8.Valid(c.response.value.output)
  }

  /** In every run the record of an answered command is text if its request is and its output
      is as it should be. */
  lemma RecordsAreText(silent: bool, steps: seq<Step>, i: nat)
    ensures var r := Run(silent, steps);
            r.Some? && i < |r.value.commands| ==>
              var c := r.value.commands[i];
              c.response.Some? && RequestIsText(c.request, c.time) && OutputIsText(c) ==> IsText(RecordOf(c).entry)
  {
    hide Run, Utf8.Valid, Utf8.NoHighByteInEsc;
    AnswersAreUtf8(silent, steps, i);
  }

  /** In every run the journal file reads back as exactly the entries of the commands below the
      first that is not submitted, in order, and cut anywhere it yields a prefix of them. */
  lemma JournalFileReadsBack(silent: bool, steps: seq<Step>, codec: Codec, cut: nat)
    ensures var r := Run(silent, steps);
            r.Some? && codec.Faithful() && (forall k :: 0 <= k < |r.value.transcript.drained| ==> IsText(r.value.transcript.drained[k].entry)) ==>
              var h := r.value; var n := |h.transcript.drained|; var file := FileOf(codec, h.transcript);
              && n <= |h.commands|
              && (n < |h.commands| ==> h.commands[n].worker != Done)
              && (forall k :: 0 <= k < n ==> h.commands[k].worker == Done && h.commands[k].response.Some?)
              && exists entries: seq<TranscriptEntry> ::
                   && |entries| == n
                   && (forall k :: 0 <= k < n ==> entries[k] == RecordOf(h.commands[k]).entry)
                   && Entries(codec, file) == Some(entries)
                   && OnePass(codec, file) == entries
                   && (cut <= |file| ==> OnePass(codec, file[..cut]) <= entries)
  {
    hide Run, RecordOf, Journal, Entries, OnePass, Codec.Faithful, IsText;
    JournalIsExact(silent, steps);
    var r := Run(silent, steps);
    if r.Some? && codec.Faithful() && forall k :: 0 <= k < |r.value.transcript.drained| ==> IsText(r.value.transcript.drained[k].entry) {
      var q := r.value.transcript;
      var entries := EntriesOf(q.drained);
      JournalReadsBack(codec, entries);
      if cut <= |FileOf(codec, q)| {
        var k := CutJournalYieldsPrefix(codec, entries, cut);
      }
    }
  }
}
