/** A command completes without its console: neither the answer nor the journal entry waits
    for the printing turn (src/host.rs). And the session automaton of the connection is what
    its threads implement. */
module Completion {
  import opened Bytes
  import opened OutputFilters
  import opened Commands
  import P = PtyExec
  import S = Sessions

  predicate Finished(w: Worker) {
    w == SubmittingFailure || w == Submitting || w == Done || w == Abandoned
  }

  function WorkerEffort(w: Worker): nat {
    match w
    case Spawning => 12
    case QueueingFailure(_) => 2
    case AnsweringFailure(_) => 1
    case QueueingJob => 11
    case JoiningReader => 10
    case SettingFinished => 9
    case CancellingTimer => 8
    case JoiningTimer => 7
    case JoiningWatcher => 6
    case Reaping => 5
    case ReadingErrno => 4
    case Answering => 3
    case _ => 0
  }

  /** What is left to do, counting the joins' threads once nothing else stands before them. */
  function Effort(c: Command): nat {
    10 * WorkerEffort(c.worker)
    + (if c.reader == ReaderGone then 0 else 1)
    + (match c.timer case Armed => 3 case Terminating => 2 case Killing => 1 case _ => 0)
    + (match c.watcher case Listening => 2 case Checking => 1 case Aborting => 2 case Finishing => 1 case _ => 0)
  }

  /** A step that brings the command nearer its answer; never one of its console job. */
  ghost function Helpful(c: Command): Action {
    match c.worker
    case Spawning =>
      var envs := P.Listing(c.request.envs);
      if Startable(c.request, envs) then ByWorker(SpawnSucceeds(NO_START.(envs := envs))) else ByWorker(SpawnFails([]))
    case QueueingFailure(_) => ByWorker(QueueJob)
    case AnsweringFailure(_) => ByWorker(AnswerFailure(true))
    case QueueingJob => ByWorker(QueueJob)
    case JoiningReader => if c.reader == Reading then ByReader(EndOfFile) else ByWorker(JoinReader)
    case SettingFinished => ByWorker(SetFinished)
    case CancellingTimer => ByWorker(CancelTimer)
    case JoiningTimer =>
      (match c.timer
       case Armed => ByTimer(SeeCancel)
       case Terminating => ByTimer(TimerTerm)
       case Killing => ByTimer(TimerKill)
       case _ => ByWorker(JoinTimer))
    case JoiningWatcher =>
      (match c.watcher
       case Listening => ByWatcher(Hear(S.NoLine))
       case Checking => ByWatcher(CheckFinished)
       case Aborting => ByWatcher(WatcherTerm)
       case Finishing => ByWatcher(WatcherKill)
       case _ => ByWorker(JoinWatcher))
    case Reaping => ByWorker(Reap(0))
    case ReadingErrno => ByWorker(ReadErrno(P.PipeRead(true, [])))
    case _ => ByWorker(Answer(true))
  }

  lemma TimerHelps(c: Command)
    requires ThreadsOk(c) && c.worker == JoiningTimer
    ensures Enabled(c, Helpful(c)) && Effort(Act(c, Helpful(c))) < Effort(c)
  {
    hide ReaderStep, WatcherStep, JobStep;
  }

  lemma WatcherHelps(c: Command)
    requires ThreadsOk(c) && c.worker == JoiningWatcher
    ensures Enabled(c, Helpful(c)) && Effort(Act(c, Helpful(c))) < Effort(c)
  {
    hide ReaderStep, TimerStep, JobStep;
  }

  lemma ReaderHelps(c: Command)
    requires ThreadsOk(c) && c.worker == JoiningReader
    ensures Enabled(c, Helpful(c)) && Effort(Act(c, Helpful(c))) < Effort(c)
  {
    hide WatcherStep, TimerStep, JobStep;
  }

  lemma SpawningHelps(c: Command)
    requires ThreadsOk(c) && c.worker == Spawning
    ensures Enabled(c, Helpful(c)) && Effort(Act(c, Helpful(c))) < Effort(c)
  {
    hide ReaderStep, WatcherStep, TimerStep, JobStep, Classified, ErrnoFound, P.Refusal, P.Listing;
    assert P.Lists(P.Listing(c.request.envs), c.request.envs);
    hide P.Lists;
  }

  lemma QueueingHelps(c: Command)
    requires ThreadsOk(c) && (c.worker.QueueingFailure? || c.worker.AnsweringFailure? || c.worker == QueueingJob)
    ensures Enabled(c, Helpful(c)) && Effort(Act(c, Helpful(c))) < Effort(c)
  {
    hide ReaderStep, WatcherStep, TimerStep, JobStep, Classified, ErrnoFound, Startable;
  }

  lemma EndingHelps(c: Command)
    requires c.worker == SettingFinished || c.worker == CancellingTimer || c.worker == Reaping
          || c.worker == ReadingErrno || c.worker == Answering
    ensures Enabled(c, Helpful(c)) && Effort(Act(c, Helpful(c))) < Effort(c)
  {
    hide ReaderStep, WatcherStep, TimerStep, JobStep, Classified, ErrnoFound, Startable;
  }

  lemma HelpfulHelps(silent: bool, c: Command)
    requires Ok(silent, c) && !Finished(c.worker)
    ensures Enabled(c, Helpful(c)) && !Helpful(c).ByJob?
    ensures Effort(Act(c, Helpful(c))) < Effort(c)
  {
    hide ThreadsOk, BufferOk, AnswerOk, Act, Effort, Enabled;
    if c.worker == JoiningTimer {
      TimerHelps(c);
    } else if c.worker == JoiningWatcher {
      WatcherHelps(c);
    } else if c.worker == JoiningReader {
      ReaderHelps(c);
    } else if c.worker == Spawning {
      SpawningHelps(c);
    } else if c.worker.QueueingFailure? || c.worker.AnsweringFailure? || c.worker == QueueingJob {
      QueueingHelps(c);
    } else {
      EndingHelps(c);
    }
  }

  /** The command will not be answered: its worker gave up, or is bound to. */
  predicate Lost(c: Command) {
    c.worker == Abandoned || c.watcher == Panicked
  }

  lemma OthersLoseNothing(c: Command, a: Action)
    requires Enabled(c, a) && (a.ByReader? || a.ByTimer?)
    ensures Lost(Act(c, a)) <==> Lost(c)
  {
    hide ReaderStep, TimerStep, WorkerStep, WatcherStep, JobStep;
    match a
    case ByReader(r) => ReaderTouchesOnlyTheBuffer(c, r);
    case ByTimer(t) => TimerTouchesOnlyItself(c, t);
    case _ =>
  }

  lemma WatcherLosesNothing(c: Command, a: WatcherAction)
    requires WatcherEnabled(c, a) && a != Panic
    ensures Lost(Act(c, ByWatcher(a))) <==> Lost(c)
  {
  }

  lemma WorkerLosesNothing(c: Command, a: WorkerAction)
    requires ThreadsOk(c) && WorkerEnabled(c, a) && a != AnswerFailure(false)
    ensures Lost(WorkerStep(c, a)) <==> Lost(c)
  {
    hide Classified, ErrnoFound, Startable;
  }

  /** A helpful step never panics the watcher and never loses an answer. */
  lemma HelpfulLosesNothing(silent: bool, c: Command)
    requires Ok(silent, c) && !Finished(c.worker)
    requires Enabled(c, Helpful(c))
    ensures Lost(Act(c, Helpful(c))) <==> Lost(c)
  {
    HelpfulIsHarmless(c);
    hide BufferOk, AnswerOk, ThreadsOk, JobStep, TimerStep, ReaderStep, WatcherStep, WorkerStep, Helpful, Lost;
    match Helpful(c)
    case ByWorker(w) => WorkerLosesNothing(c, w);
    case ByWatcher(w) => WatcherLosesNothing(c, w);
    case a => OthersLoseNothing(c, a);
  }

  lemma HelpfulIsHarmless(c: Command)
    ensures var a := Helpful(c); a != ByWatcher(Panic) && a != ByWorker(AnswerFailure(false)) && !a.ByJob?
  {
    hide Startable;
  }

  lemma FinishedIsAnsweredOrLost(silent: bool, c: Command)
    requires Ok(silent, c) && Finished(c.worker)
    ensures c.worker == Abandoned <==> Lost(c)
    ensures !Lost(c) <==> c.response.Some?
    ensures c.spawned && c.response.Some? ==> c.reaped && c.response.value.output == Filtered(c.pty.rawTotal)
  {
    hide BufferOk, Filtered, Truthful, ErrnoFound;
  }

  function ActAll(c: Command, actions: seq<Action>): Option<Command>
    decreases actions
  {
    if actions == [] then Some(c)
    else if !Enabled(c, actions[0]) then None
    else ActAll(Act(c, actions[0]), actions[1..])
  }

  /** From any state a command can be in, its own threads bring it to its end without a single
      step of its console job or of any other command: answered with its whole output and
      ready to be journalled, unless its watcher has panicked or its worker has given up. */
  lemma {:induction false} AnswerNeedsNoConsole(silent: bool, c: Command) returns (actions: seq<Action>)
    requires Ok(silent, c)
    ensures forall k :: 0 <= k < |actions| ==> !actions[k].ByJob?
    ensures |actions| <= Effort(c)
    ensures var r := ActAll(c, actions);
            && r.Some? && Ok(silent, r.value) && Finished(r.value.worker)
            && (r.value.worker == Abandoned <==> Lost(c))
            && (r.value.response.Some? <==> !Lost(c))
            && (r.value.spawned && !Lost(c) ==>
                  r.value.reaped && r.value.response.value.output == Filtered(r.value.pty.rawTotal))
    decreases Effort(c)
  {
    hide Ok, Enabled, Act, Effort, Helpful, Finished, Lost, Filtered;
    if Finished(c.worker) {
      actions := [];
      FinishedIsAnsweredOrLost(silent, c);
    } else {
      HelpfulHelps(silent, c);
      HelpfulLosesNothing(silent, c);
      ActKeepsOk(silent, c, Helpful(c));
      var more := AnswerNeedsNoConsole(silent, Act(c, Helpful(c)));
      actions := [Helpful(c)] + more;
      assert actions[1..] == more;
    }
  }

  // ---------- the session a command's threads implement ----------

  /** The phase of the connection while it runs this command, from the launch on. */
  function PhaseOf(c: Command, tag: nat): S.Phase {
    match c.worker
    case Spawning => S.AtTop(true)
    case QueueingFailure(_) => S.AnsweringFailure(tag)
    case AnsweringFailure(_) => S.AnsweringFailure(tag)
    case SubmittingFailure => S.Journalling(tag)
    case Submitting => S.Journalling(tag)
    case Done => S.AtTop(false)
    case Abandoned => S.Gone
    case _ =>
      if c.watcher == Panicked then S.Gone
      else if c.watcher == Checking || c.watcher == Listening then S.Watching(tag)
      else S.HandedBack(tag)
  }

  /** The session's name for a step of the command's threads; None when the session does not move. */
  function SessionAction(c: Command, a: Action, tag: nat): Option<S.HostAction>
    requires Enabled(c, a)
  {
    match a
    case ByWorker(w) =>
      (match w
       case SpawnSucceeds(_) => Some(S.HearLine(S.Request(tag, S.Runnable), true, true))
       case SpawnFails(_) => Some(S.HearLine(S.Request(tag, S.Runnable), true, false))
       case AnswerFailure(written) => Some(S.AnswerFailure(written))
       case Answer(written) => Some(S.WriteResponse(written))
       case _ => None)
    case ByWatcher(w) =>
      (match w
       case CheckFinished => if c.finished then Some(S.CommandEnds) else None
       case Hear(Got(line)) => Some(S.Overhear(line))
       case Hear(Disconnected) => Some(S.CommandEnds)
       case Panic => Some(S.Vanish)
       case _ => None)
    case _ => None
  }

  /** What the command's step adds to what the session has heard. */
  function HeardBy(a: Action, tag: nat): seq<S.Event> {
    match a
    case ByWorker(SpawnSucceeds(_)) => [S.Processed(tag)]
    case ByWorker(SpawnFails(_)) => [S.Processed(tag)]
    case ByWatcher(Hear(Got(line))) => [S.Overheard(line)]
    case _ => []
  }

  /** The steps that put the command's response on the socket. */
  predicate Responds(a: Action) {
    a == ByWorker(Answer(true)) || a == ByWorker(AnswerFailure(true))
  }

  function RepliesBy(a: Action, tag: nat): seq<S.Reply> {
    if Responds(a) then [S.Response(tag)] else []
  }

  /** The session moves with the command: its phase, what it has heard, what it replies. */
  predicate MovesAlong(c: Command, a: Action, d: Command, tag: nat, heard: seq<S.Event>)
    requires Enabled(c, a)
  {
    var s := S.Session(PhaseOf(c, tag), heard);
    match SessionAction(c, a, tag)
    case None => PhaseOf(d, tag) == s.phase && HeardBy(a, tag) == [] && !Responds(a)
    case Some(h) =>
      && S.HostEnabled(s, h)
      && S.HostStep(s, h) == S.Session(PhaseOf(d, tag), heard + HeardBy(a, tag))
      && S.Replies(s, h) == RepliesBy(a, tag)
  }

  /** Refinement: each step of the command's threads is a step of the session automaton, with
      the same line heard and the same reply, or leaves the session alone. */
  lemma ThreadsRefineTheSession(silent: bool, c: Command, a: Action, tag: nat, heard: seq<S.Event>)
    requires Ok(silent, c) && Enabled(c, a)
    ensures MovesAlong(c, a, Act(c, a), tag, heard)
  {
    hide BufferOk, AnswerOk, WorkerStep, WatcherStep, WorkerEnabled, WatcherEnabled, MovesAlong;
    if a.ByWorker? {
      WorkerRefines(c, a.worker, tag, heard);
    } else if a.ByWatcher? {
      WatcherRefines(c, a.watcher, tag, heard);
    } else {
      OthersMoveAlong(c, a, tag, heard);
    }
  }

  lemma OthersMoveAlong(c: Command, a: Action, tag: nat, heard: seq<S.Event>)
    requires Enabled(c, a) && !a.ByWorker? && !a.ByWatcher?
    ensures MovesAlong(c, a, Act(c, a), tag, heard)
  {
    hide S.HostStep, S.HostEnabled, S.Replies, PhaseOf, Act, Enabled;
    OthersKeepThePhase(c, a, tag);
  }

  lemma OthersKeepThePhase(c: Command, a: Action, tag: nat)
    requires Enabled(c, a) && !a.ByWorker? && !a.ByWatcher?
    ensures PhaseOf(Act(c, a), tag) == PhaseOf(c, tag)
  {
    hide PhaseOf, JobStep, JobEnabled, ReaderStep, TimerStep;
    match a {
      case ByJob(j) => JobTouchesOnlyItself(c, j);
      case ByReader(r) => ReaderTouchesOnlyTheBuffer(c, r);
      case ByTimer(t) => TimerTouchesOnlyItself(c, t);
      case _ =>
    }
    SamePhase(c, Act(c, a), tag);
  }

  lemma SamePhase(c: Command, d: Command, tag: nat)
    requires d.worker == c.worker && d.watcher == c.watcher
    ensures PhaseOf(d, tag) == PhaseOf(c, tag)
  {
  }

  lemma SpawningRefines(c: Command, a: WorkerAction, tag: nat, heard: seq<S.Event>)
    requires WorkerEnabled(c, a) && (a.SpawnSucceeds? || a.SpawnFails?)
    ensures MovesAlong(c, ByWorker(a), WorkerStep(c, a), tag, heard)
  {
    hide Startable;
  }

  lemma UnspawnedWorkerRefines(c: Command, a: WorkerAction, tag: nat, heard: seq<S.Event>)
    requires ThreadsOk(c) && WorkerEnabled(c, a) && !c.spawned && !a.SpawnSucceeds? && !a.SpawnFails?
    ensures MovesAlong(c, ByWorker(a), WorkerStep(c, a), tag, heard)
  {
    assert a == QueueJob || a.AnswerFailure?;
    hide ThreadsOk, Classified, ErrnoFound, Startable;
    assert heard + [] == heard;
  }

  lemma JoiningRefines(c: Command, a: WorkerAction, tag: nat, heard: seq<S.Event>)
    requires ThreadsOk(c) && WorkerEnabled(c, a) && c.spawned && !a.Reap? && !a.ReadErrno? && !a.Answer?
    ensures MovesAlong(c, ByWorker(a), WorkerStep(c, a), tag, heard)
  {
    hide Classified, ErrnoFound, Startable, S.HostStep, S.HostEnabled, S.Replies;
  }

  lemma SpawnedWorkerRefines(c: Command, a: WorkerAction, tag: nat, heard: seq<S.Event>)
    requires ThreadsOk(c) && WorkerEnabled(c, a) && c.spawned && (a.Reap? || a.ReadErrno? || a.Answer?)
    ensures MovesAlong(c, ByWorker(a), WorkerStep(c, a), tag, heard)
  {
    assert c.watcher.Returned?;
    hide ThreadsOk, Classified, ErrnoFound, Startable;
    assert heard + [] == heard;
  }

  lemma WorkerRefines(c: Command, a: WorkerAction, tag: nat, heard: seq<S.Event>)
    requires ThreadsOk(c) && WorkerEnabled(c, a)
    ensures MovesAlong(c, ByWorker(a), WorkerStep(c, a), tag, heard)
  {
    hide MovesAlong, WorkerStep, WorkerEnabled, ThreadsOk;
    if a.SpawnSucceeds? || a.SpawnFails? {
      SpawningRefines(c, a, tag, heard);
    } else if c.spawned && (a.Reap? || a.ReadErrno? || a.Answer?) {
      SpawnedWorkerRefines(c, a, tag, heard);
    } else if c.spawned {
      JoiningRefines(c, a, tag, heard);
    } else {
      UnspawnedWorkerRefines(c, a, tag, heard);
    }
  }

  lemma WatcherRefines(c: Command, a: WatcherAction, tag: nat, heard: seq<S.Event>)
    requires ThreadsOk(c) && WatcherEnabled(c, a)
    ensures MovesAlong(c, ByWatcher(a), WatcherStep(c, a), tag, heard)
  {
    assert heard + [] == heard;
  }

  /** And the last step, `submit`, is the session's return to the top of its loop. */
  lemma SubmitRefinesTheSession(c: Command, tag: nat, heard: seq<S.Event>)
    requires c.worker == Submitting || c.worker == SubmittingFailure
    ensures var s := S.Session(PhaseOf(c, tag), heard);
            S.HostEnabled(s, S.Journal) && S.HostStep(s, S.Journal).phase == PhaseOf(c.(worker := Done), tag)
  {
  }

  /** The session and the replies after these steps; None when one was not possible. */
  function SessionRun(s: S.Session, steps: seq<S.HostAction>): Option<(S.Session, seq<S.Reply>)>
    decreases steps
  {
    if steps == [] then Some((s, []))
    else if !S.HostEnabled(s, steps[0]) then None
    else match SessionRun(S.HostStep(s, steps[0]), steps[1..])
      case None => None
      case Some((t, replies)) => Some((t, S.Replies(s, steps[0]) + replies))
  }

  function SessionSteps(c: Command, actions: seq<Action>, tag: nat): seq<S.HostAction>
    requires ActAll(c, actions).Some?
    decreases actions
  {
    if actions == [] then []
    else
      (match SessionAction(c, actions[0], tag) case None => [] case Some(h) => [h])
      + SessionSteps(Act(c, actions[0]), actions[1..], tag)
  }

  function HeardByAll(actions: seq<Action>, tag: nat): seq<S.Event> {
    if actions == [] then [] else HeardBy(actions[0], tag) + HeardByAll(actions[1..], tag)
  }

  function RepliesByAll(actions: seq<Action>, tag: nat): seq<S.Reply> {
    if actions == [] then [] else RepliesBy(actions[0], tag) + RepliesByAll(actions[1..], tag)
  }

  /** Whole runs of a command's threads are runs of the session, line for line and reply for reply. */
  lemma {:induction false} RunsRefineTheSession(silent: bool, c: Command, actions: seq<Action>, tag: nat, heard: seq<S.Event>)
    requires Ok(silent, c) && ActAll(c, actions).Some?
    ensures var d := ActAll(c, actions).value;
            SessionRun(S.Session(PhaseOf(c, tag), heard), SessionSteps(c, actions, tag))
            == Some((S.Session(PhaseOf(d, tag), heard + HeardByAll(actions, tag)), RepliesByAll(actions, tag)))
    decreases actions
  {
    hide Ok, Enabled, Act, PhaseOf, SessionAction, HeardBy, Responds, S.HostStep, S.HostEnabled, S.Replies;
    if actions == [] {
      assert heard + [] == heard;
    } else {
      var a, rest := actions[0], actions[1..];
      var d := Act(c, a);
      ActKeepsOk(silent, c, a);
      ThreadsRefineTheSession(silent, c, a, tag, heard);
      RunsRefineTheSession(silent, d, rest, tag, heard + HeardBy(a, tag));
      Assoc(heard, HeardBy(a, tag), HeardByAll(rest, tag));
      var later := SessionSteps(d, rest, tag);
      match SessionAction(c, a, tag)
      case None =>
        assert heard + [] == heard;
        assert [] + later == later && [] + RepliesByAll(rest, tag) == RepliesByAll(rest, tag);
        assert [] + HeardByAll(rest, tag) == HeardByAll(rest, tag);
      case Some(h) =>
        assert ([h] + later)[1..] == later;
    }
  }

  lemma WorkerResponds(c: Command, a: WorkerAction)
    requires AnswerOk(c) && WorkerEnabled(c, a)
    ensures !Finished(c.worker)
    ensures a == Answer(true) || a == AnswerFailure(true) ==>
              Finished(WorkerStep(c, a).worker) && WorkerStep(c, a).response.Some?
  {
    hide Classified, ErrnoFound, Startable, Truthful, Filtered;
  }

  /** A response goes out from a worker that is not through, which it then is, with an answer. */
  lemma RespondingIsFinal(silent: bool, c: Command, a: Action)
    requires Ok(silent, c) && Enabled(c, a)
    ensures Finished(c.worker) ==> !Responds(a) && Finished(Act(c, a).worker)
    ensures Responds(a) ==> Finished(Act(c, a).worker) && Act(c, a).response.Some?
  {
    hide BufferOk, ThreadsOk, AnswerOk, JobStep, JobEnabled, ReaderStep, TimerStep, WatcherStep, WorkerStep, WorkerEnabled, Finished;
    match a
    case ByWorker(w) => WorkerResponds(c, w);
    case ByReader(r) => ReaderTouchesOnlyTheBuffer(c, r);
    case ByTimer(t) => TimerTouchesOnlyItself(c, t);
    case ByWatcher(w) => WatcherTouchesOnlyItself(c, w);
    case ByJob(j) => JobTouchesOnlyItself(c, j);
  }

  /** One command, one response: in any run of its threads the session replies at most once,
      exactly when the worker has written the command's answer. */
  lemma {:induction false} AtMostOneResponse(silent: bool, c: Command, actions: seq<Action>, tag: nat)
    requires Ok(silent, c) && ActAll(c, actions).Some?
    ensures RepliesByAll(actions, tag) == if exists k :: 0 <= k < |actions| && Responds(actions[k]) then [S.Response(tag)] else []
    ensures Finished(c.worker) ==> RepliesByAll(actions, tag) == []
    decreases actions
  {
    hide Ok, Enabled, Act, Responds, Finished;
    if actions != [] {
      var a, rest := actions[0], actions[1..];
      ActKeepsOk(silent, c, a);
      RespondingIsFinal(silent, c, a);
      AtMostOneResponse(silent, Act(c, a), rest, tag);
      if k :| 0 <= k < |actions| && Responds(actions[k]) {
        assert k > 0 ==> rest[k - 1] == actions[k];
      }
      if k :| 0 <= k < |rest| && Responds(rest[k]) {
        assert actions[k + 1] == rest[k];
      }
    }
  }
}
